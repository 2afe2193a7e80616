/** Sorting shipped plan files into one bucket per master plan. */
module ArchiveGroups {
  import opened Text

  /** A stem belongs to a master it equals or extends by a dash. */
  predicate Under(s: string, m: string) {
    s == m || StartsWith(s, m + "-")
  }

  /** A master extends no other stem. */
  predicate Master(stems: seq<string>, m: string) {
    m in stems && forall t :: t in stems && t != m ==> !StartsWith(m, t + "-")
  }

  lemma UnderTransitive(s: string, t: string, m: string)
    requires StartsWith(s, t + "-") && Under(t, m)
    ensures StartsWith(s, m + "-")
  {
    if t != m {
      assert (m + "-") <= t <= (t + "-") <= s;
    }
  }

  /** Every stem has a master: whatever it extends is shorter. */
  lemma {:induction false} MasterExists(stems: seq<string>, s: string) returns (m: string)
    requires s in stems
    ensures Master(stems, m) && Under(s, m)
    decreases |s|
  {
    if Master(stems, s) {
      m := s;
    } else {
      var t :| t in stems && t != s && StartsWith(s, t + "-");
      m := MasterExists(stems, t);
      UnderTransitive(s, t, m);
    }
  }

  lemma PrefixesNest(s: string, a: string, b: string)
    requires StartsWith(s, a + "-") && StartsWith(s, b + "-") && |a| < |b|
    ensures StartsWith(b, a + "-")
  {
    assert forall i :: 0 <= i <= |a| ==> (a + "-")[i] == s[i] == (b + "-")[i];
    assert forall i :: 0 <= i <= |a| ==> (b + "-")[i] == b[i];
  }

  /** And only one: of two masters over one stem, one would extend the other. */
  lemma MasterIsUnique(stems: seq<string>, s: string, m: string, n: string)
    requires Master(stems, m) && Master(stems, n) && Under(s, m) && Under(s, n)
    ensures m == n
  {
    if s != m && s != n && m != n {
      if |m| < |n| {
        PrefixesNest(s, m, n);
      } else if |n| < |m| {
        PrefixesNest(s, n, m);
      } else {
        assert forall i :: 0 <= i < |m| ==> m[i] == (m + "-")[i] == s[i] == (n + "-")[i] == n[i];
      }
    }
  }

  /** The files of the stems under one master, in the order given. */
  function FilesUnder(stems: seq<string>, m: string): seq<string> {
    if stems == [] then []
    else
      var s := stems[|stems| - 1];
      FilesUnder(stems[..|stems| - 1], m) + (if Under(s, m) then [s + ".md"] else [])
  }

  method Masters(stems: seq<string>) returns (masters: seq<string>)
    ensures forall m :: m in masters <==> Master(stems, m)
  {
    masters := [];
    for i := 0 to |stems|
      invariant forall m :: m in masters <==> m in stems[..i] && Master(stems, m)
    {
      assert stems[..i + 1] == stems[..i] + [stems[i]];
      if Master(stems, stems[i]) { masters := masters + [stems[i]]; }
    }
    assert stems[..|stems|] == stems;
  }

  /** The longest candidate; there always is one. */
  method MasterOf(stems: seq<string>, masters: seq<string>, s: string) returns (best: string)
    requires s in stems && forall m :: m in masters <==> Master(stems, m)
    ensures Master(stems, best) && Under(s, best)
  {
    ghost var m := MasterExists(stems, s);
    var found := false;
    best := "";
    for i := 0 to |masters|
      invariant found ==> Master(stems, best) && Under(s, best)
      invariant !found ==> forall k :: 0 <= k < i ==> !Under(s, masters[k])
    {
      if Under(s, masters[i]) && (!found || |masters[i]| > |best|) {
        found, best := true, masters[i];
      }
    }
    assert m in masters;
  }

  /** One bucket per master, each stem's file in the bucket of its one master,
      in order: the buckets hold every file once. */
  method GroupByMaster(stems: seq<string>) returns (groups: map<string, seq<string>>)
    ensures forall m :: m in groups <==> Master(stems, m)
    ensures forall m :: m in groups ==> groups[m] == FilesUnder(stems, m)
  {
    var masters := Masters(stems);
    groups := map[];
    for i := 0 to |stems|
      invariant forall m :: m in groups ==> Master(stems, m) && groups[m] == FilesUnder(stems[..i], m)
      invariant forall m :: Master(stems, m) && m !in groups ==> FilesUnder(stems[..i], m) == []
    {
      var s := stems[i];
      var slug := MasterOf(stems, masters, s);
      assert stems[..i + 1][..i] == stems[..i];
      forall m | Master(stems, m)
        ensures FilesUnder(stems[..i + 1], m) == FilesUnder(stems[..i], m) + (if m == slug then [s + ".md"] else [])
      {
        if Under(s, m) { MasterIsUnique(stems, s, m, slug); }
      }
      var before := if slug in groups then groups[slug] else [];
      groups := groups[slug := before + [s + ".md"]];
    }
    assert stems[..|stems|] == stems;
    forall m | Master(stems, m)
      ensures m in groups
    {
      HasOwnFile(stems, m);
    }
  }

  lemma {:induction false} HasOwnFile(stems: seq<string>, m: string)
    requires m in stems
    ensures FilesUnder(stems, m) != []
  {
    if stems[|stems| - 1] != m {
      HasOwnFile(stems[..|stems| - 1], m);
    }
  }

  function Total(stems: seq<string>, masters: set<string>): nat {
    if stems == [] then 0
    else Total(stems[..|stems| - 1], masters) + |set m | m in masters && Under(stems[|stems| - 1], m)|
  }

  /** No file is lost or filed twice: the masters a stem falls under are one. */
  lemma {:induction false} EachStemFiledOnce(stems: seq<string>, all: seq<string>, masters: set<string>)
    requires forall m :: m in masters <==> Master(all, m)
    requires forall s :: s in stems ==> s in all
    ensures Total(stems, masters) == |stems|
  {
    if stems != [] {
      var s := stems[|stems| - 1];
      EachStemFiledOnce(stems[..|stems| - 1], all, masters);
      var m := MasterExists(all, s);
      forall n | n in masters && Under(s, n)
        ensures n == m
      {
        MasterIsUnique(all, s, m, n);
      }
      assert (set n | n in masters && Under(s, n)) == {m};
    }
  }

  /** One stem extends another: it goes on with a dash where the other ends. */
  predicate Extends(s: string, m: string) {
    |s| > |m| && s[..|m|] == m && s[|m|] == '-'
  }

  lemma ExtendsIs(s: string, m: string)
    ensures Extends(s, m) <==> StartsWith(s, m + "-")
  {
    if Extends(s, m) {
      assert s == (m + "-") + s[|m| + 1..];
    }
  }

  /** A bucket is kept for exactly the stems that extend no other, and a stem's
      file is in the bucket of a master exactly when it is that master or extends
      it. */
  lemma BucketsBySpelling(stems: seq<string>, m: string, s: string)
    requires m in stems && s in stems
    ensures Master(stems, m) <==> forall t :: t in stems && t != m ==> !Extends(m, t)
    ensures s + ".md" in FilesUnder(stems, m) <==> s == m || Extends(s, m)
  {
    forall t
      ensures Extends(m, t) <==> StartsWith(m, t + "-")
    {
      ExtendsIs(m, t);
    }
    ExtendsIs(s, m);
    FiledIff(stems, m, s);
    hide Extends, StartsWith;
  }

  lemma {:induction false} FiledIff(stems: seq<string>, m: string, s: string)
    ensures s + ".md" in FilesUnder(stems, m) <==> s in stems && (s == m || StartsWith(s, m + "-"))
  {
    if stems != [] {
      var n := |stems| - 1;
      FiledIff(stems[..n], m, s);
      assert stems == stems[..n] + [stems[n]];
      assert (stems[n] + ".md")[..|stems[n]|] == stems[n] && (s + ".md")[..|s|] == s;
      assert |stems[n] + ".md"| == |stems[n]| + 3;
    }
  }
}
