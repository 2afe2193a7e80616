/** Which open blocker an operator's reply answers: the grammar, the stamps
    read off each plan's log, the choice, and the text that gets stored. */
module Replies {
  import opened Values
  import opened PlanDoc
  import opened PlanOps
  import opened EventLog
  import opened Text
  import Blockers
  import Decimals

  // ----- the reply grammar -----------------------------------------------------------

  datatype Reply = NoReply | Digit(digit: nat) | Prefixed(slug: string, digit: nat)

  /** An optional slug and one digit, white space around and between. */
  function Parse(text: string): Reply {
    var t := Strip(text);
    if t == "" || !Decimals.Digit(t[|t| - 1]) then NoReply
    else
      var digit, front := Decimals.ValueOf(t[|t| - 1]), t[..|t| - 1];
      if front == "" then Digit(digit)
      else if Space(front[|front| - 1]) && Slug(TrimEnd(front)) then Prefixed(TrimEnd(front), digit)
      else NoReply
  }

  lemma NoSpaces(slug: string)
    requires Slug(slug)
    ensures forall i :: 0 <= i < |slug| ==> !Space(slug[i])
  {
  }

  /** The documented spelling of a prefixed reply is read back. */
  lemma PrefixedReads(slug: string, digit: nat)
    requires Slug(slug) && digit < 10
    ensures Parse(slug + " " + [Decimals.DigitOf(digit)]) == Prefixed(slug, digit)
    ensures Parse([Decimals.DigitOf(digit)]) == Digit(digit)
  {
    var d := Decimals.DigitOf(digit);
    var t := slug + " " + [d];
    NoSpaces(slug);
    assert t[0] == slug[0] && t[|t| - 1] == d;
    StripBare(t);
    StripBare([d]);
    assert t[..|t| - 1] == slug + " ";
    assert (slug + " ")[..|slug|] == slug;
    assert TrimEnd(slug + " ") == TrimEnd(slug) == slug;
    assert [d][..0] == "";
  }

  /** Blanks, the slug, at least one blank, the digit, blanks. */
  predicate Laid(text: string, pre: string, slug: string, mid: string, digit: char, post: string) {
    Blank(pre) && Blank(mid) && mid != "" && Blank(post) && text == pre + slug + mid + [digit] + post
  }

  /** The text is this reply with blanks around it, and between slug and digit. */
  ghost predicate Writes(text: string, reply: Reply) {
    match reply
    case NoReply => false
    case Digit(d) =>
      d < 10 && exists pre, post :: Blank(pre) && Blank(post) && text == pre + [Decimals.DigitOf(d)] + post
    case Prefixed(slug, d) =>
      d < 10 && Slug(slug) && exists pre, mid, post :: Laid(text, pre, slug, mid, Decimals.DigitOf(d), post)
  }

  lemma DigitsAre(c: char)
    ensures Decimals.Digit(c) ==> Decimals.ValueOf(c) < 10 && Decimals.DigitOf(Decimals.ValueOf(c)) == c && !Space(c)
  {
  }

  lemma DigitIs(d: nat)
    requires d < 10
    ensures Decimals.Digit(Decimals.DigitOf(d)) && Decimals.ValueOf(Decimals.DigitOf(d)) == d && !Space(Decimals.DigitOf(d))
  {
  }

  lemma WrittenDigit(text: string, d: nat)
    requires Writes(text, Digit(d))
    ensures Parse(text) == Digit(d)
  {
    var pre, post :| Blank(pre) && Blank(post) && text == pre + [Decimals.DigitOf(d)] + post;
    DigitIs(d);
    StripBlanks(pre, [Decimals.DigitOf(d)], post);
    assert [Decimals.DigitOf(d)][..0] == "";
    hide Decimals.DigitOf, Decimals.ValueOf, Decimals.Digit, Space;
  }

  lemma WrittenPrefixed(text: string, slug: string, d: nat)
    requires Writes(text, Prefixed(slug, d))
    ensures Parse(text) == Prefixed(slug, d)
  {
    var pre, mid, post :| Blank(pre) && Blank(mid) && mid != "" && Blank(post)
      && text == pre + slug + mid + [Decimals.DigitOf(d)] + post;
    var c := Decimals.DigitOf(d);
    var t := slug + mid + [c];
    DigitIs(d);
    NoSpaces(slug);
    assert t[0] == slug[0] && t[|t| - 1] == c;
    assert text == pre + t + post;
    StripBlanks(pre, t, post);
    assert t[..|t| - 1] == slug + mid;
    TrimEndBlank(slug, mid);
    assert (slug + mid)[|slug + mid| - 1] == mid[|mid| - 1];
    hide Decimals.DigitOf, Decimals.ValueOf, Decimals.Digit, Space, Slug;
  }

  lemma DigitWrites(text: string, pre: string, c: char, post: string)
    requires Blank(pre) && Blank(post) && text == pre + [c] + post && Decimals.Digit(c)
    ensures Writes(text, Digit(Decimals.ValueOf(c)))
  {
    DigitsAre(c);
    hide Decimals.DigitOf, Decimals.ValueOf, Decimals.Digit, Space;
  }

  lemma BlanksBetween(front: string) returns (mid: string)
    requires front != "" && Space(front[|front| - 1])
    ensures front == TrimEnd(front) + mid && mid != "" && Blank(mid)
  {
    mid := TrimmedEnd(front);
    hide Space;
    assert mid == "" ==> front == TrimEnd(front);
  }

  lemma Regroups(pre: string, slug: string, mid: string, c: char, post: string)
    ensures pre + ((slug + mid) + [c]) + post == pre + slug + mid + [c] + post
  {
  }

  lemma SlugWrites(text: string, pre: string, front: string, c: char, post: string)
    requires Blank(pre) && Blank(post) && text == pre + (front + [c]) + post && Decimals.Digit(c)
    requires front != "" && Space(front[|front| - 1]) && Slug(TrimEnd(front))
    ensures Writes(text, Prefixed(TrimEnd(front), Decimals.ValueOf(c)))
  {
    DigitsAre(c);
    var mid := BlanksBetween(front);
    Regroups(pre, TrimEnd(front), mid, c, post);
    assert Laid(text, pre, TrimEnd(front), mid, c, post);
    hide Laid, TrimEnd, Blank, Decimals.DigitOf, Decimals.ValueOf, Decimals.Digit, Space, Slug;
  }

  lemma ParsedIsWritten(text: string)
    requires Parse(text) != NoReply
    ensures Writes(text, Parse(text))
  {
    hide Strip, TrimEnd, Space, Slug, Blank, Writes, Decimals.ValueOf, Decimals.Digit;
    var pre, post := StrippedParts(text);
    var t := Strip(text);
    var c, front := t[|t| - 1], t[..|t| - 1];
    assert t == front + [c];
    if front == "" {
      assert t == [c];
      DigitWrites(text, pre, c, post);
    } else {
      SlugWrites(text, pre, front, c, post);
    }
  }

  /** Every text is read as what it writes and as nothing else: a digit, or a
      slug, some blanks and a digit, with blanks around. */
  lemma ReadsAsWritten(text: string, reply: Reply)
    requires reply != NoReply
    ensures Parse(text) == reply <==> Writes(text, reply)
  {
    if Parse(text) == reply { ParsedIsWritten(text); }
    if Writes(text, reply) {
      match reply {
        case Digit(d) => WrittenDigit(text, d);
        case Prefixed(slug, d) => WrittenPrefixed(text, slug, d);
        case NoReply =>
      }
    }
    hide Parse, Writes;
  }

  // ----- open blockers and their stamps ---------------------------------------------------

  /** `pinged` is None for a blocker without a block event in the hot log; it
      sorts before every time. */
  datatype OpenBlocker = OpenBlocker(root: string, slug: string, id: Json, options: nat, pinged: Option<int>)

  predicate Older(a: Option<int>, b: Option<int>) {
    b.Some? && (a.None? || a.value < b.value)
  }

  predicate Blocks(e: Event, id: Json) {
    e.kind.PhaseBlocked? && id != Null && Get(e.payload, BlockerId) == id
  }

  /** The time of the last block event naming this blocker. */
  function LastBlocked(evs: seq<Event>, id: Json): Option<int> {
    if evs == [] then None
    else if Blocks(evs[|evs| - 1], id) then Some(evs[|evs| - 1].ts)
    else LastBlocked(evs[..|evs| - 1], id)
  }

  /** The event says that somebody asked under this id. */
  predicate SaysAsked(e: Event, id: Json) {
    e.kind == PhaseBlocked && BlockerId in e.payload && e.payload[BlockerId] == id && id != Null
  }

  /** The stamp of an id is the time of the last event that says it was asked,
      and there is none exactly when no event says so. */
  lemma {:induction false} LastBlockedIsLast(evs: seq<Event>, id: Json)
    ensures LastBlocked(evs, id).None? <==> forall i :: 0 <= i < |evs| ==> !SaysAsked(evs[i], id)
    ensures forall i :: 0 <= i < |evs| && SaysAsked(evs[i], id) && (forall j :: i < j < |evs| ==> !SaysAsked(evs[j], id)) ==>
              LastBlocked(evs, id) == Some(evs[i].ts)
  {
    if evs != [] {
      var n := |evs| - 1;
      LastBlockedIsLast(evs[..n], id);
      assert SaysAsked(evs[n], id) <==> Blocks(evs[n], id);
      assert forall i :: 0 <= i < n ==> evs[..n][i] == evs[i];
      hide SaysAsked, Blocks;
    }
  }

  function OptionCount(b: Doc): nat {
    var o := Get(b, Options);
    if o.Arr? then |o.items| else 0
  }

  function Hydrated(root: string, slug: string, evs: seq<Event>, b: Doc): OpenBlocker {
    OpenBlocker(root, slug, Get(b, Id), OptionCount(b), LastBlocked(evs, Get(b, Id)))
  }

  function OpenOf(root: string, slug: string, evs: seq<Event>, bs: seq<Doc>): seq<OpenBlocker> {
    if bs == [] then []
    else
      var b := bs[|bs| - 1];
      OpenOf(root, slug, evs, bs[..|bs| - 1]) + (if Unanswered(b) then [Hydrated(root, slug, evs, b)] else [])
  }

  lemma {:induction false} LastBlockedConcat(xs: seq<Event>, ys: seq<Event>, id: Json)
    ensures LastBlocked(xs + ys, id) == if LastBlocked(ys, id).Some? then LastBlocked(ys, id) else LastBlocked(xs, id)
    decreases |ys|
  {
    if ys == [] {
      assert xs + ys == xs;
    } else {
      assert (xs + ys)[..|xs + ys| - 1] == xs + ys[..|ys| - 1];
      LastBlockedConcat(xs, ys[..|ys| - 1], id);
    }
  }

  /** The entry is this row's: where its plan lives, its id, how many options it
      offers and when it was last asked. */
  predicate Represents(o: OpenBlocker, root: string, slug: string, evs: seq<Event>, b: Doc) {
    && o.root == root && o.slug == slug && o.id == Get(b, Id) && o.pinged == LastBlocked(evs, Get(b, Id))
    && o.options == if Get(b, Options).Arr? then |Get(b, Options).items| else 0
  }

  /** The open blockers of a plan are its rows still to be answered, and no
      others. */
  lemma {:induction false} OpensRepresentRows(root: string, slug: string, evs: seq<Event>, bs: seq<Doc>, o: OpenBlocker)
    ensures o in OpenOf(root, slug, evs, bs)
            <==> exists k :: 0 <= k < |bs| && Get(bs[k], Answer) == Null && Represents(o, root, slug, evs, bs[k])
  {
    if bs != [] {
      var n := |bs| - 1;
      OpensRepresentRows(root, slug, evs, bs[..n], o);
      assert forall k :: 0 <= k < n ==> bs[..n][k] == bs[k];
      assert Represents(o, root, slug, evs, bs[n]) <==> o == Hydrated(root, slug, evs, bs[n]);
      hide Represents, Hydrated;
    }
  }

  /** One pass back over the log fills a table with each blocker's last stamp. */
  method HydrateOpenBlockers(root: string, slug: string, evs: seq<Event>, bs: seq<Doc>) returns (opens: seq<OpenBlocker>)
    ensures opens == OpenOf(root, slug, evs, bs)
  {
    var last: map<Json, int> := map[];
    var i := |evs|;
    while i > 0
      invariant 0 <= i <= |evs|
      invariant forall id :: LastBlocked(evs[i..], id) == if id in last then Some(last[id]) else None
    {
      i := i - 1;
      var e := evs[i];
      assert evs[i..] == [e] + evs[i + 1..];
      assert [e][..0] == [];
      forall id
        ensures LastBlocked(evs[i..], id) ==
                  if LastBlocked(evs[i + 1..], id).Some? then LastBlocked(evs[i + 1..], id)
                  else if Blocks(e, id) then Some(e.ts) else None
      {
        LastBlockedConcat([e], evs[i + 1..], id);
      }
      if e.kind.PhaseBlocked? {
        var id := Get(e.payload, BlockerId);
        if id != Null && id !in last { last := last[id := e.ts]; }
      }
    }
    assert evs[0..] == evs;
    opens := [];
    for k := 0 to |bs|
      invariant opens == OpenOf(root, slug, evs, bs[..k])
    {
      assert bs[..k + 1][..k] == bs[..k];
      if Unanswered(bs[k]) {
        var id := Get(bs[k], Id);
        opens := opens + [OpenBlocker(root, slug, id, OptionCount(bs[k]), if id in last then Some(last[id]) else None)];
      }
    }
    assert bs[..|bs|] == bs;
  }

  // ----- the choice -----------------------------------------------------------------------

  datatype Located = Found(target: OpenBlocker, answer: nat) | Ambiguous(candidates: seq<OpenBlocker>) | NotFound

  function Eligible(opens: seq<OpenBlocker>, digit: nat): seq<OpenBlocker> {
    if opens == [] then []
    else
      var b := opens[|opens| - 1];
      Eligible(opens[..|opens| - 1], digit) + (if digit < b.options then [b] else [])
  }

  /** Descending by stamp, ties in the order they came. */
  function Insert(b: OpenBlocker, sorted: seq<OpenBlocker>): seq<OpenBlocker> {
    if sorted == [] || Older(sorted[0].pinged, b.pinged) then [b] + sorted else [sorted[0]] + Insert(b, sorted[1..])
  }

  predicate Descending(bs: seq<OpenBlocker>) {
    forall i, j :: 0 <= i < j < |bs| ==> !Older(bs[i].pinged, bs[j].pinged)
  }

  lemma {:induction false} InsertKeeps(b: OpenBlocker, sorted: seq<OpenBlocker>)
    requires Descending(sorted)
    ensures multiset(Insert(b, sorted)) == multiset(sorted) + multiset{b} && Descending(Insert(b, sorted))
  {
    if !(sorted == [] || Older(sorted[0].pinged, b.pinged)) {
      var rest := Insert(b, sorted[1..]);
      InsertKeeps(b, sorted[1..]);
      assert sorted == [sorted[0]] + sorted[1..];
      forall j | 0 <= j < |rest|
        ensures !Older(sorted[0].pinged, rest[j].pinged)
      {
        assert rest[j] in multiset(rest);
        if rest[j] != b {
          assert rest[j] in sorted[1..];
        }
      }
    }
  }

  /** One blocker, once, strictly newer than every other eligible one. */
  predicate Winner(bs: multiset<OpenBlocker>, digit: nat, w: OpenBlocker) {
    && bs[w] == 1 && digit < w.options
    && forall c :: c in bs && c != w && digit < c.options ==> Older(c.pinged, w.pinged)
  }

  lemma {:induction false} EligibleHas(opens: seq<OpenBlocker>, digit: nat, b: OpenBlocker)
    ensures multiset(Eligible(opens, digit))[b] == if digit < b.options then multiset(opens)[b] else 0
  {
    if opens != [] {
      EligibleHas(opens[..|opens| - 1], digit, b);
      assert opens == opens[..|opens| - 1] + [opens[|opens| - 1]];
    }
  }

  method PickByLastPinged(opens: seq<OpenBlocker>, digit: nat) returns (picked: Option<OpenBlocker>)
    ensures picked.Some? ==> Winner(multiset(opens), digit, picked.value)
    ensures picked.None? ==> forall b :: !Winner(multiset(opens), digit, b)
  {
    var eligible := Eligible(opens, digit);
    var sorted: seq<OpenBlocker> := [];
    for i := 0 to |eligible|
      invariant multiset(sorted) == multiset(eligible[..i]) && Descending(sorted)
    {
      InsertKeeps(eligible[i], sorted);
      assert eligible[..i + 1] == eligible[..i] + [eligible[i]];
      sorted := Insert(eligible[i], sorted);
    }
    assert eligible[..|eligible|] == eligible;
    TopDecides(opens, digit, sorted);
    if sorted == [] { return None; }
    if |sorted| >= 2 && sorted[0].pinged == sorted[1].pinged { return None; }
    picked := Some(sorted[0]);
  }

  /** The top of the sorted list wins unless the second ties with it. */
  lemma TopDecides(opens: seq<OpenBlocker>, digit: nat, sorted: seq<OpenBlocker>)
    requires multiset(sorted) == multiset(Eligible(opens, digit)) && Descending(sorted)
    ensures sorted != [] && (|sorted| >= 2 ==> sorted[0].pinged != sorted[1].pinged)
        ==> Winner(multiset(opens), digit, sorted[0])
    ensures sorted == [] || (|sorted| >= 2 && sorted[0].pinged == sorted[1].pinged)
        ==> forall b :: !Winner(multiset(opens), digit, b)
  {
    SortedCounts(opens, digit, sorted);
    hide Eligible, Older, Descending;
    if sorted == [] {
      NothingEligible(multiset(opens), digit, sorted);
    } else if |sorted| >= 2 && sorted[0].pinged == sorted[1].pinged {
      TiedTop(sorted, multiset(opens), digit);
    } else {
      StrictTop(sorted);
      TopWins(sorted, multiset(opens), digit);
    }
  }

  lemma SortedCounts(opens: seq<OpenBlocker>, digit: nat, sorted: seq<OpenBlocker>)
    requires multiset(sorted) == multiset(Eligible(opens, digit))
    ensures forall b :: multiset(sorted)[b] == if digit < b.options then multiset(opens)[b] else 0
  {
    forall b
      ensures multiset(sorted)[b] == if digit < b.options then multiset(opens)[b] else 0
    {
      EligibleHas(opens, digit, b);
    }
  }

  lemma NothingEligible(bs: multiset<OpenBlocker>, digit: nat, sorted: seq<OpenBlocker>)
    requires sorted == [] && forall b :: multiset(sorted)[b] == if digit < b.options then bs[b] else 0
    ensures forall b :: !Winner(bs, digit, b)
  {
    forall b
      ensures !Winner(bs, digit, b)
    {
      assert multiset(sorted)[b] == 0;
    }
  }

  lemma TopWins(sorted: seq<OpenBlocker>, bs: multiset<OpenBlocker>, digit: nat)
    requires sorted != [] && multiset(sorted)[sorted[0]] == 1
    requires forall c :: c in multiset(sorted) && c != sorted[0] ==> Older(c.pinged, sorted[0].pinged)
    requires forall b :: multiset(sorted)[b] == if digit < b.options then bs[b] else 0
    ensures Winner(bs, digit, sorted[0])
  {
    hide Older;
    var top := sorted[0];
    forall c | c in bs && c != top && digit < c.options
      ensures Older(c.pinged, top.pinged)
    {
      assert multiset(sorted)[c] == bs[c];
    }
  }

  lemma StrictTop(sorted: seq<OpenBlocker>)
    requires sorted != [] && Descending(sorted) && (|sorted| >= 2 ==> sorted[0].pinged != sorted[1].pinged)
    ensures multiset(sorted)[sorted[0]] == 1
    ensures forall c :: c in multiset(sorted) && c != sorted[0] ==> Older(c.pinged, sorted[0].pinged)
  {
    var top := sorted[0];
    forall i | 1 <= i < |sorted|
      ensures Older(sorted[i].pinged, top.pinged)
    {
      if i > 1 { assert !Older(sorted[1].pinged, sorted[i].pinged); }
      assert !Older(sorted[0].pinged, sorted[1].pinged);
    }
    assert sorted == [top] + sorted[1..];
    assert top !in sorted[1..];
    assert top !in multiset(sorted[1..]);
    forall c | c in multiset(sorted) && c != top
      ensures Older(c.pinged, top.pinged)
    {
      assert c in sorted[1..];
      var i :| 1 <= i < |sorted| && sorted[i] == c;
    }
  }

  lemma TiedTop(sorted: seq<OpenBlocker>, bs: multiset<OpenBlocker>, digit: nat)
    requires |sorted| >= 2 && Descending(sorted) && sorted[0].pinged == sorted[1].pinged
    requires forall b :: multiset(sorted)[b] == if digit < b.options then bs[b] else 0
    ensures forall b :: !Winner(bs, digit, b)
  {
    var top, next := sorted[0], sorted[1];
    assert sorted == [top, next] + sorted[2..];
    assert top in multiset(sorted) && next in multiset(sorted);
    assert top == next ==> multiset(sorted)[top] >= 2;
    forall b
      ensures !Winner(bs, digit, b)
    {
      if b in sorted {
        var i :| 0 <= i < |sorted| && sorted[i] == b;
        assert !Older(sorted[0].pinged, sorted[i].pinged);
        var other := if b == top then next else top;
        assert other in multiset(sorted) && !Older(other.pinged, b.pinged);
        assert other == b ==> multiset(sorted)[b] >= 2;
        assert other in bs && digit < other.options;
      } else {
        assert b !in multiset(sorted);
      }
    }
  }

  /** Route and classify one reply against the open blockers of all plans. */
  method FindBlockerForReply(reply: Reply, opens: seq<OpenBlocker>) returns (r: Located)
    ensures Locates(reply, opens, r)
  {
    match reply {
      case NoReply => return NotFound;
      case Prefixed(slug, digit) =>
        var i := 0;
        while i < |opens| && opens[i].slug != slug
          invariant 0 <= i <= |opens| && forall j :: 0 <= j < i ==> opens[j].slug != slug
        {
          i := i + 1;
        }
        return if i < |opens| then Found(opens[i], digit) else NotFound;
      case Digit(digit) =>
        if opens == [] { return NotFound; }
        if |opens| == 1 { return Found(opens[0], digit); }
        var picked := PickByLastPinged(opens, digit);
        if picked.Some? { return Found(picked.value, digit); }
        EligibleNone(opens, digit);
        r := if Eligible(opens, digit) == [] then NotFound else Ambiguous(Eligible(opens, digit));
    }
  }

  lemma {:induction false} EligibleNone(opens: seq<OpenBlocker>, digit: nat)
    ensures Eligible(opens, digit) == [] <==> forall i :: 0 <= i < |opens| ==> digit >= opens[i].options
  {
    if opens != [] {
      EligibleNone(opens[..|opens| - 1], digit);
    }
  }

  /** What the answer means. A prefix takes the first open blocker of its plan
      and a lone open blocker takes any digit; otherwise a bare digit goes to
      the one blocker that offers it and was asked about last, is ambiguous
      when that is a tie, and matches nothing when no blocker offers it. */
  ghost predicate Locates(reply: Reply, opens: seq<OpenBlocker>, r: Located) {
    match reply
    case NoReply => r == NotFound
    case Prefixed(slug, digit) =>
      if forall i :: 0 <= i < |opens| ==> opens[i].slug != slug then r == NotFound
      else exists i :: 0 <= i < |opens| && r == Found(opens[i], digit) && opens[i].slug == slug
             && forall j :: 0 <= j < i ==> opens[j].slug != slug
    case Digit(digit) =>
      if |opens| == 0 then r == NotFound
      else if |opens| == 1 then r == Found(opens[0], digit)
      else if forall i :: 0 <= i < |opens| ==> digit >= opens[i].options then r == NotFound
      else if r.Found? then r.answer == digit && Winner(multiset(opens), digit, r.target)
      else r == Ambiguous(Eligible(opens, digit)) && forall b :: !Winner(multiset(opens), digit, b)
  }

  lemma OneWinner(bs: multiset<OpenBlocker>, digit: nat, v: OpenBlocker, w: OpenBlocker)
    requires Winner(bs, digit, v) && Winner(bs, digit, w)
    ensures v == w
  {
  }

  lemma Members(xs: seq<OpenBlocker>, ys: seq<OpenBlocker>)
    requires multiset(xs) == multiset(ys)
    ensures forall i :: 0 <= i < |xs| ==> xs[i] in ys
  {
    forall i | 0 <= i < |xs|
      ensures xs[i] in ys
    {
      assert xs[i] in multiset(xs);
      assert xs[i] in multiset(ys);
    }
  }

  lemma MembersMatch(xs: seq<OpenBlocker>, ys: seq<OpenBlocker>, digit: nat)
    requires multiset(xs) == multiset(ys)
    ensures (forall i :: 0 <= i < |xs| ==> digit >= xs[i].options) <==> (forall i :: 0 <= i < |ys| ==> digit >= ys[i].options)
    ensures |xs| == |ys|
  {
    assert |multiset(xs)| == |xs| && |multiset(ys)| == |ys|;
    Members(xs, ys);
    Members(ys, xs);
  }

  /** The order in which plans are registered does not matter to a bare digit:
      the same blocker is found, or none is, for the same reason. */
  lemma RegistryOrderDoesNotMatter(xs: seq<OpenBlocker>, ys: seq<OpenBlocker>, digit: nat, r: Located, s: Located)
    requires multiset(xs) == multiset(ys)
    requires Locates(Digit(digit), xs, r) && Locates(Digit(digit), ys, s)
    ensures r.Found? || s.Found? ==> r == s
    ensures r.NotFound? <==> s.NotFound?
    ensures r.Ambiguous? && s.Ambiguous? ==> multiset(r.candidates) == multiset(s.candidates)
  {
    MembersMatch(xs, ys, digit);
    if |xs| == 1 {
      assert xs == [xs[0]] && ys == [ys[0]];
      assert xs[0] in multiset(ys);
    }
    forall b
      ensures multiset(Eligible(xs, digit))[b] == multiset(Eligible(ys, digit))[b]
    {
      EligibleHas(xs, digit, b);
      EligibleHas(ys, digit, b);
    }
    if r.Found? && s.Found? && |xs| > 1 {
      OneWinner(multiset(xs), digit, r.target, s.target);
    }
    if |xs| > 1 && r.Found? { assert Winner(multiset(ys), digit, r.target); }
    if |xs| > 1 && s.Found? { assert Winner(multiset(xs), digit, s.target); }
  }

  lemma {:induction false} NewestExists(opens: seq<OpenBlocker>, digit: nat) returns (k: nat)
    requires exists i :: 0 <= i < |opens| && digit < opens[i].options
    ensures k < |opens| && digit < opens[k].options
    ensures forall i :: 0 <= i < |opens| && digit < opens[i].options ==> !Older(opens[k].pinged, opens[i].pinged)
  {
    k :| 0 <= k < |opens| && digit < opens[k].options;
    for n := 0 to |opens|
      invariant k < |opens| && digit < opens[k].options
      invariant forall i :: 0 <= i < n && digit < opens[i].options ==> !Older(opens[k].pinged, opens[i].pinged)
    {
      if digit < opens[n].options && Older(opens[k].pinged, opens[n].pinged) { k := n; }
    }
  }

  /** Two places of the list offer the digit and share the newest stamp among
      all that do. */
  predicate Tied(opens: seq<OpenBlocker>, digit: nat, i: nat, j: nat) {
    && i < j < |opens| && digit < opens[i].options && digit < opens[j].options && opens[i].pinged == opens[j].pinged
    && forall c :: 0 <= c < |opens| && digit < opens[c].options ==> !Older(opens[i].pinged, opens[c].pinged)
  }

  /** A bare digit is ambiguous exactly when the newest stamp among the blockers
      that offer it is shared. */
  lemma AmbiguousIffTied(opens: seq<OpenBlocker>, digit: nat, r: Located)
    requires Locates(Digit(digit), opens, r)
    ensures r.Ambiguous? <==> exists i, j :: Tied(opens, digit, i, j)
  {
    if r.Ambiguous? {
      var k := NewestExists(opens, digit);
      if other :| Shares(opens, digit, k, other) {
        assert Tied(opens, digit, if k < other then k else other, if k < other then other else k);
      } else {
        AloneWins(opens, digit, k);
      }
    } else if i, j :| Tied(opens, digit, i, j) {
      TieHasNoWinner(opens, digit, i, j);
    }
  }

  predicate Shares(opens: seq<OpenBlocker>, digit: nat, k: nat, other: nat)
    requires k < |opens|
  {
    other < |opens| && other != k && digit < opens[other].options && opens[other].pinged == opens[k].pinged
  }

  lemma AloneWins(opens: seq<OpenBlocker>, digit: nat, k: nat)
    requires k < |opens| && digit < opens[k].options && forall other :: !Shares(opens, digit, k, other)
    requires forall i :: 0 <= i < |opens| && digit < opens[i].options ==> !Older(opens[k].pinged, opens[i].pinged)
    ensures Winner(multiset(opens), digit, opens[k])
  {
    var b := opens[k];
    forall i | 0 <= i < |opens| && i != k
      ensures opens[i] != b
    {
      assert !Shares(opens, digit, k, i);
    }
    assert opens == opens[..k] + ([b] + opens[k + 1..]);
    assert b !in opens[..k] && b !in opens[k + 1..];
    assert b !in multiset(opens[..k]) && b !in multiset(opens[k + 1..]);
    forall c | c in multiset(opens) && c != b && digit < c.options
      ensures Older(c.pinged, b.pinged)
    {
      assert c in opens;
      var i :| 0 <= i < |opens| && opens[i] == c;
      assert !Shares(opens, digit, k, i);
    }
  }

  lemma TieHasNoWinner(opens: seq<OpenBlocker>, digit: nat, i: nat, j: nat)
    requires Tied(opens, digit, i, j)
    ensures forall w :: !Winner(multiset(opens), digit, w)
  {
    assert opens == opens[..i] + [opens[i]] + opens[i + 1..j] + [opens[j]] + opens[j + 1..];
    assert opens[i] in opens && opens[j] in opens;
    assert opens[i] == opens[j] ==> multiset(opens)[opens[i]] >= 2;
    forall w
      ensures !Winner(multiset(opens), digit, w)
    {
      if w in multiset(opens) && digit < w.options {
        assert w in opens;
        var c :| 0 <= c < |opens| && opens[c] == w;
        var x := if w == opens[i] then opens[j] else opens[i];
        assert x in multiset(opens) && !Older(x.pinged, w.pinged);
      }
    }
  }

  predicate Offering(opens: seq<OpenBlocker>, digit: nat, i: int) {
    0 <= i < |opens| && digit < opens[i].options
  }

  /** The blocker at `k` offers the digit and was asked about after every other
      one that does; a blocker without a time was asked about before them all. */
  ghost predicate AskedLast(opens: seq<OpenBlocker>, digit: nat, k: int) {
    && Offering(opens, digit, k)
    && forall i :: Offering(opens, digit, i) && i != k ==>
         opens[k].pinged.Some? && (opens[i].pinged.None? || opens[i].pinged.value < opens[k].pinged.value)
  }

  lemma AskedLastWins(opens: seq<OpenBlocker>, digit: nat, k: int)
    requires AskedLast(opens, digit, k)
    ensures Winner(multiset(opens), digit, opens[k])
  {
    forall i | 0 <= i < |opens|
      ensures digit < opens[i].options && i != k ==> Older(opens[i].pinged, opens[k].pinged)
      ensures !Shares(opens, digit, k, i)
    {
      assert Offering(opens, digit, i) <==> digit < opens[i].options;
    }
    AloneWins(opens, digit, k);
  }

  lemma WinnerAskedLast(opens: seq<OpenBlocker>, digit: nat, w: OpenBlocker) returns (k: nat)
    requires Winner(multiset(opens), digit, w)
    ensures AskedLast(opens, digit, k) && opens[k] == w
  {
    assert w in opens;
    k :| 0 <= k < |opens| && opens[k] == w;
    forall i | Offering(opens, digit, i) && i != k
      ensures Older(opens[i].pinged, w.pinged)
    {
      assert opens[i] in multiset(opens);
      if opens[i] == w {
        TwiceCounts(opens, i, k);
      }
    }
  }

  lemma TwiceCounts(opens: seq<OpenBlocker>, i: nat, j: nat)
    requires i < |opens| && j < |opens| && i != j && opens[i] == opens[j]
    ensures multiset(opens)[opens[i]] >= 2
  {
    var a, b := if i < j then i else j, if i < j then j else i;
    assert opens == opens[..a] + [opens[a]] + opens[a + 1..b] + [opens[b]] + opens[b + 1..];
  }

  lemma {:induction false} EligibleIs(opens: seq<OpenBlocker>, digit: nat, b: OpenBlocker)
    ensures b in Eligible(opens, digit) <==> exists i :: Offering(opens, digit, i) && opens[i] == b
  {
    if opens != [] {
      var n := |opens| - 1;
      EligibleIs(opens[..n], digit, b);
      assert Eligible(opens, digit) == Eligible(opens[..n], digit) + (if digit < opens[n].options then [opens[n]] else []);
      if i :| Offering(opens[..n], digit, i) && opens[..n][i] == b {
        assert Offering(opens, digit, i) && opens[i] == b;
      }
      if i :| Offering(opens, digit, i) && opens[i] == b {
        assert i < n ==> Offering(opens[..n], digit, i) && opens[..n][i] == b;
      }
      assert opens[n] == b && digit < b.options ==> Offering(opens, digit, n);
    }
  }

  /** Where a bare digit goes, place by place: to a lone open blocker, or to the
      one offering it that was asked about last; nowhere when none offers it;
      and otherwise it is ambiguous between all that do. */
  lemma DigitRoutes(opens: seq<OpenBlocker>, digit: nat, r: Located)
    requires Locates(Digit(digit), opens, r)
    ensures |opens| == 1 ==> r == Found(opens[0], digit)
    ensures forall k :: |opens| != 1 && AskedLast(opens, digit, k) ==> r == Found(opens[k], digit)
    ensures r.Found? ==> |opens| == 1 || exists k :: AskedLast(opens, digit, k)
    ensures r.NotFound? <==> |opens| != 1 && forall i :: !Offering(opens, digit, i)
    ensures r.Ambiguous? ==> forall b :: b in r.candidates <==> exists i :: Offering(opens, digit, i) && opens[i] == b
  {
    forall b
      ensures b in Eligible(opens, digit) <==> exists i :: Offering(opens, digit, i) && opens[i] == b
    {
      EligibleIs(opens, digit, b);
    }
    forall k | AskedLast(opens, digit, k) && |opens| != 1
      ensures r == Found(opens[k], digit)
    {
      AskedLastWins(opens, digit, k);
      assert digit < opens[k].options;
      if r.Found? {
        OneWinner(multiset(opens), digit, r.target, opens[k]);
      }
    }
    if r.Found? && |opens| != 1 {
      var k := WinnerAskedLast(opens, digit, r.target);
    }
    assert forall i: nat :: i < |opens| ==> (Offering(opens, digit, i) <==> digit < opens[i].options);
  }

  /** Where a prefixed reply goes: to the first open blocker of its plan, with
      the digit as given, and to none exactly when the plan has none open. */
  lemma PrefixRoutes(slug: string, digit: nat, opens: seq<OpenBlocker>, r: Located)
    requires Locates(Prefixed(slug, digit), opens, r)
    ensures r.NotFound? <==> forall i :: 0 <= i < |opens| ==> opens[i].slug != slug
    ensures !r.Ambiguous?
    ensures forall i :: 0 <= i < |opens| && opens[i].slug == slug && (forall j :: 0 <= j < i ==> opens[j].slug != slug) ==>
              r == Found(opens[i], digit)
  {
    if r.Found? {
      var k :| 0 <= k < |opens| && r == Found(opens[k], digit) && opens[k].slug == slug
               && forall j :: 0 <= j < k ==> opens[j].slug != slug;
      forall i | 0 <= i < |opens| && opens[i].slug == slug && forall j :: 0 <= j < i ==> opens[j].slug != slug
        ensures i == k
      {
        assert !(i < k) && !(k < i);
      }
    }
  }

  // ----- what is stored --------------------------------------------------------------------

  /** The answer written for a digit is the option it names, when the blocker
      has one; a digit out of range is stored as typed. */
  lemma StoredAnswer(p: Plan, last: int, id: string, digit: nat, ts: int)
    requires digit < 10
    requires var i := Find(p.blockers, Str(id)); i < |p.blockers| && Unanswered(p.blockers[i])
    requires Get(p.blockers[Find(p.blockers, Str(id))], Options).Arr?
    ensures var b := p.blockers[Find(p.blockers, Str(id))];
            var e := PlanEffect(p, last, AnswerBlocker(id, Decimals.Decimal(digit), ts));
            && e.Commit?
            && e.reply == (if digit < OptionCount(b) then Get(b, Options).items[digit] else Str([Decimals.DigitOf(digit)]))
  {
    Decimals.ReadsBack(digit);
    hide NormalBlocker, Stamp;
  }

  lemma SameOptions(a: Doc, b: Doc)
    requires Get(a, Options) == Get(b, Options)
    ensures OptionCount(a) == OptionCount(b)
  {
  }

  /** With several blockers open, a bare digit that finds one is never out of
      range. Whatever happens before the answer is given, what is then stored
      is the text of the option the operator saw, unless somebody answered
      first: that is the one refusal, and it changes nothing. */
  lemma FoundDigitIsAnOption(db: Db, between: seq<Call>, slug: string, k: nat, root: string, opens: seq<OpenBlocker>,
          digit: nat, ts: int)
    requires Blockers.AllTold(db) && Blockers.FairRun(between) && slug in db.plans && AcceptedSlug(slug)
    requires k < |db.plans[slug].blockers| && Unanswered(db.plans[slug].blockers[k]) && digit < 10 && |opens| > 1
    requires var p := db.plans[slug];
             Locates(Digit(digit), opens, Found(Hydrated(root, slug, p.events, p.blockers[k]), digit))
    ensures digit < OptionCount(db.plans[slug].blockers[k])
    ensures slug in Run(db, between).plans && k < |Run(db, between).plans[slug].blockers|
    ensures var b, later := db.plans[slug].blockers[k], Run(db, between);
            var o := Step(later, slug, AnswerBlocker(Blockers.IdOf(k), Decimals.Decimal(digit), ts));
            if Unanswered(later.plans[slug].blockers[k]) then o.result == Ok(Get(b, Options).items[digit])
            else o == Outcome(later, Err(NoSuchKey))
  {
    var p := db.plans[slug];
    Blockers.AnswersNeverChange(db, between, slug);
    Blockers.EachAnswerIsConsumedOnce(db, between);
    var later := Run(db, between);
    var q := later.plans[slug];
    assert Blockers.Told(q);
    Blockers.ViewAt(p.blockers, k);
    Blockers.ViewAt(q.blockers, k);
    Blockers.FindNumbered(q.blockers, k);
    SameOptions(p.blockers[k], q.blockers[k]);
    var id := Blockers.IdOf(k);
    var op := AnswerBlocker(id, Decimals.Decimal(digit), ts);
    hide Run, Blockers.AllTold, Blockers.FairRun, Blockers.Told, Blockers.Views, Blockers.IdOf, Find;
    AnswerEffect(Bumped(q), later.last, op);
    if Unanswered(q.blockers[k]) {
      StoredAnswer(Bumped(q), later.last, id, digit, ts);
    }
    hide PlanEffect;
  }

  lemma AnswerEffect(p: Plan, last: int, op: Op)
    requires op.AnswerBlocker?
    ensures var i := Find(p.blockers, Str(op.blocker));
            i < |p.blockers| && !Unanswered(p.blockers[i]) ==> PlanEffect(p, last, op) == Raise(NoSuchKey)
  {
  }
}
