/** The technique-to-tool routing of mitre_router.py and the parallel burst it feeds. The routing
    table is a parameter: what is proved holds for any table. */
module Router {
  import opened Strings

  type Tool = string

  /** priority is empty when the entry has none. */
  datatype Entry = Entry(tools: seq<Tool>, priority: Tool)

  datatype Table = Table(entries: map<string, Entry>, fallback: Entry)

  /** The entry of a technique, else of its parent, else the fallback. */
  function GetRouting(table: Table, tid: string): Entry {
    if tid in table.entries then table.entries[tid]
    else
      var parent := Split(tid, '.')[0];
      if parent in table.entries then table.entries[parent] else table.fallback
  }

  function Upper(s: string): string {
    seq(|s|, i requires 0 <= i < |s| => if 'a' <= s[i] <= 'z' then (s[i] as int - 32) as char else s[i])
  }

  /** The calls a triage may make, by severity in any case. */
  function GetBudget(severity: string): nat {
    var level := Upper(severity);
    if level == "LOW" then 3
    else if level == "MEDIUM" then 5
    else if level == "HIGH" then 8
    else if level == "CRITICAL" then 15
    else 5
  }

  /** s is the capital letters of level, in any case. */
  predicate SameLetters(s: string, level: string) {
    |s| == |level|
    && forall i :: 0 <= i < |s| ==>
         s[i] == level[i] || ('A' <= level[i] <= 'Z' && s[i] as int == level[i] as int + 32)
  }

  lemma UpperIs(s: string, level: string)
    requires forall c <- level :: 'A' <= c <= 'Z'
    ensures Upper(s) == level <==> SameLetters(s, level)
  {
    if SameLetters(s, level) {
      forall i | 0 <= i < |s| ensures Upper(s)[i] == level[i] { assert level[i] in level; }
    } else if Upper(s) == level {
      forall i | 0 <= i < |s|
        ensures s[i] == level[i] || ('A' <= level[i] <= 'Z' && s[i] as int == level[i] as int + 32)
      {
        assert Upper(s)[i] == level[i] && level[i] in level;
      }
    }
  }

  /** The budgets, for the four severities in any case and for anything else. */
  lemma BudgetIs(s: string)
    ensures SameLetters(s, "LOW") ==> GetBudget(s) == 3
    ensures SameLetters(s, "MEDIUM") ==> GetBudget(s) == 5
    ensures SameLetters(s, "HIGH") ==> GetBudget(s) == 8
    ensures SameLetters(s, "CRITICAL") ==> GetBudget(s) == 15
    ensures !SameLetters(s, "LOW") && !SameLetters(s, "HIGH") && !SameLetters(s, "CRITICAL") ==> GetBudget(s) == 5
  {
    UpperIs(s, "LOW");
    UpperIs(s, "MEDIUM");
    UpperIs(s, "HIGH");
    UpperIs(s, "CRITICAL");
  }

  /** Where an entry comes from: the technique's own, or else that of the text before its first dot, or else
      the fallback. */
  lemma RoutingIs(table: Table, tid: string, parent: string, sub: string)
    requires '.' !in parent
    ensures tid in table.entries ==> GetRouting(table, tid) == table.entries[tid]
    ensures tid !in table.entries && tid == parent + "." + sub ==>
              GetRouting(table, tid) == if parent in table.entries then table.entries[parent] else table.fallback
    ensures tid !in table.entries && '.' !in tid ==> GetRouting(table, tid) == table.fallback
  {
    if tid == parent + "." + sub { SplitFirst(parent, '.', sub); }
    if '.' !in tid { SplitWhole(tid, '.'); }
  }

  // ---------- First occurrences ----------

  /** xs with every element but its first occurrences removed. */
  function FirstOccurrences(xs: seq<Tool>): seq<Tool> {
    if xs == [] then []
    else
      var r, x := FirstOccurrences(xs[..|xs| - 1]), xs[|xs| - 1];
      if x in r then r else r + [x]
  }

  function FirstIndex(xs: seq<Tool>, x: Tool): (i: nat)
    requires x in xs
    ensures i < |xs| && xs[i] == x && x !in xs[..i]
  {
    if xs[0] == x then 0 else 1 + FirstIndex(xs[1..], x)
  }

  lemma {:induction false} FirstIndexExtends(xs: seq<Tool>, y: Tool, x: Tool)
    requires x in xs
    ensures FirstIndex(xs + [y], x) == FirstIndex(xs, x)
  {
    if xs[0] != x {
      assert (xs + [y])[1..] == xs[1..] + [y];
      FirstIndexExtends(xs[1..], y, x);
    }
  }

  lemma {:induction false} FirstIndexSplits(xs: seq<Tool>, ys: seq<Tool>, x: Tool)
    requires x in xs + ys
    ensures FirstIndex(xs + ys, x) < |xs| <==> x in xs
  {
    if xs != [] && xs[0] != x {
      assert (xs + ys)[1..] == xs[1..] + ys;
      FirstIndexSplits(xs[1..], ys, x);
    }
  }

  /** It has the same elements, each once, in the order in which they first appear. */
  lemma {:induction false} FirstOccurrencesOrdered(xs: seq<Tool>)
    ensures var r := FirstOccurrences(xs);
            && (forall x :: x in r <==> x in xs)
            && (forall i, j :: 0 <= i < j < |r| ==>
                  r[i] in xs && r[j] in xs && FirstIndex(xs, r[i]) < FirstIndex(xs, r[j]))
  {
    if xs != [] {
      var init, x := xs[..|xs| - 1], xs[|xs| - 1];
      var r, q := FirstOccurrences(xs), FirstOccurrences(init);
      FirstOccurrencesOrdered(init);
      assert xs == init + [x];
      forall i, j | 0 <= i < j < |r|
        ensures r[i] in xs && r[j] in xs && FirstIndex(xs, r[i]) < FirstIndex(xs, r[j])
      {
        FirstIndexExtends(init, x, r[i]);
        if j < |q| {
          FirstIndexExtends(init, x, r[j]);
        } else {
          assert x !in init;
          assert FirstIndex(xs, x) == |init|;
        }
      }
    }
  }

  lemma AppendKnown(xs: seq<Tool>, x: Tool)
    ensures FirstOccurrences(xs + [x]) ==
            if x in xs then FirstOccurrences(xs) else FirstOccurrences(xs) + [x]
  {
    FirstOccurrencesOrdered(xs);
    assert (xs + [x])[..|xs|] == xs;
  }

  // ---------- The merge ----------

  function Priorities(table: Table, tids: seq<string>): seq<Tool> {
    if tids == [] then []
    else
      var p := GetRouting(table, tids[|tids| - 1]).priority;
      Priorities(table, tids[..|tids| - 1]) + if p != "" then [p] else []
  }

  function AllTools(table: Table, tids: seq<string>): seq<Tool> {
    if tids == [] then []
    else AllTools(table, tids[..|tids| - 1]) + GetRouting(table, tids[|tids| - 1]).tools
  }

  /** What get_tools_for_techniques returns: every priority tool, then every tool, repeats removed. */
  function Merged(table: Table, tids: seq<string>): seq<Tool> {
    FirstOccurrences(Priorities(table, tids) + AllTools(table, tids))
  }

  /** ordered and seen are what everything offered so far comes to. */
  predicate Tracks(ordered: seq<Tool>, seen: set<Tool>, done: seq<Tool>) {
    ordered == FirstOccurrences(done) && seen == set x | x in done
  }

  /** Appends one tool unless it has been seen; done is everything offered so far. */
  method Offer(ordered: seq<Tool>, seen: set<Tool>, tool: Tool, ghost done: seq<Tool>)
    returns (ordered': seq<Tool>, seen': set<Tool>)
    requires Tracks(ordered, seen, done)
    ensures Tracks(ordered', seen', done + [tool])
  {
    AppendKnown(done, tool);
    ordered', seen' := ordered, seen;
    if tool !in seen {
      ordered' := ordered + [tool];
      seen' := seen + {tool};
    }
  }

  method GetToolsForTechniques(table: Table, tids: seq<string>) returns (ordered: seq<Tool>)
    ensures ordered == Merged(table, tids)
  {
    ordered := [];
    var seen: set<Tool> := {};
    ghost var done: seq<Tool> := [];
    for i := 0 to |tids|
      invariant done == Priorities(table, tids[..i])
      invariant Tracks(ordered, seen, done)
    {
      assert tids[..i + 1][..i] == tids[..i];
      var entry := GetRouting(table, tids[i]);
      if entry.priority != "" {
        ordered, seen := Offer(ordered, seen, entry.priority, done);
        done := done + [entry.priority];
      }
    }
    assert tids[..|tids|] == tids;
    ordered := AddTools(table, tids, ordered, seen, done);
  }

  method AddTools(table: Table, tids: seq<string>, first: seq<Tool>, known: set<Tool>, ghost ps: seq<Tool>)
    returns (ordered: seq<Tool>)
    requires Tracks(first, known, ps)
    ensures ordered == FirstOccurrences(ps + AllTools(table, tids))
  {
    ordered := first;
    var seen := known;
    ghost var done := ps;
    for i := 0 to |tids|
      invariant done == ps + AllTools(table, tids[..i])
      invariant Tracks(ordered, seen, done)
    {
      assert tids[..i + 1][..i] == tids[..i];
      var tools := GetRouting(table, tids[i]).tools;
      ghost var before := done;
      for j := 0 to |tools|
        invariant done == before + tools[..j]
        invariant Tracks(ordered, seen, done)
      {
        ordered, seen := Offer(ordered, seen, tools[j], done);
        done := done + [tools[j]];
        assert tools[..j + 1] == tools[..j] + [tools[j]];
      }
      assert tools[..|tools|] == tools;
      Associates(ps, AllTools(table, tids[..i]), tools);
    }
    assert tids[..|tids|] == tids;
  }

  lemma Associates(xs: seq<Tool>, ys: seq<Tool>, zs: seq<Tool>)
    ensures xs + ys + zs == xs + (ys + zs)
  {
  }

  /** A tool is fired exactly when some technique's entry names it. */
  predicate Routes(table: Table, tid: string, x: Tool) {
    x in GetRouting(table, tid).tools || (x == GetRouting(table, tid).priority && x != "")
  }

  ghost predicate Routed(table: Table, tids: seq<string>, x: Tool) { exists tid <- tids :: Routes(table, tid, x) }

  lemma RoutedStep(table: Table, init: seq<string>, last: string, x: Tool)
    ensures Routed(table, init + [last], x) <==> Routed(table, init, x) || Routes(table, last, x)
  {
    if Routed(table, init, x) {
      var tid :| tid in init && Routes(table, tid, x);
      assert tid in init + [last];
    } else if Routes(table, last, x) {
      assert last in init + [last];
    }
  }

  lemma {:induction false} Sources(table: Table, tids: seq<string>, x: Tool)
    ensures x in Priorities(table, tids) || x in AllTools(table, tids) <==> Routed(table, tids, x)
  {
    if tids != [] {
      var init, last := tids[..|tids| - 1], tids[|tids| - 1];
      Sources(table, init, x);
      RoutedStep(table, init, last, x);
      assert tids == init + [last];
    }
  }

  predicate Distinct(xs: seq<Tool>) { forall i, j :: 0 <= i < j < |xs| ==> xs[i] != xs[j] }

  lemma MergedHas(table: Table, tids: seq<string>, x: Tool)
    ensures x in Merged(table, tids) <==> Routed(table, tids, x)
  {
    var ps, ts := Priorities(table, tids), AllTools(table, tids);
    FirstOccurrencesOrdered(ps + ts);
    Sources(table, tids, x);
    assert x in ps + ts <==> x in ps || x in ts;
  }

  /** The merge fires each tool once, and exactly the tools that some technique's entry names. */
  lemma MergeIsASet(table: Table, tids: seq<string>)
    ensures Distinct(Merged(table, tids))
    ensures forall x :: x in Merged(table, tids) <==> Routed(table, tids, x)
  {
    var xs := Priorities(table, tids) + AllTools(table, tids);
    FirstOccurrencesOrdered(xs);
    var r := FirstOccurrences(xs);
    forall i, j | 0 <= i < j < |r| ensures r[i] != r[j] { assert FirstIndex(xs, r[i]) < FirstIndex(xs, r[j]); }
    assert Merged(table, tids) == r;
    forall x ensures x in Merged(table, tids) <==> Routed(table, tids, x) { MergedHas(table, tids, x); }
  }

  /** So which tools it fires does not depend on the order, or the repetition, of the techniques. */
  lemma OrderDoesNotMatter(table: Table, tids: seq<string>, others: seq<string>, x: Tool)
    requires forall t :: t in tids <==> t in others
    ensures x in Merged(table, tids) <==> x in Merged(table, others)
  {
    MergedHas(table, tids, x);
    MergedHas(table, others, x);
    if Routed(table, tids, x) {
      var t :| t in tids && Routes(table, t, x);
      assert t in others;
    }
    if Routed(table, others, x) {
      var t :| t in others && Routes(table, t, x);
      assert t in tids;
    }
  }

  /** Every priority tool comes before every tool that is nobody's priority. */
  lemma PrioritiesFirst(table: Table, tids: seq<string>, i: nat, j: nat)
    requires var r := Merged(table, tids);
             i < |r| && j < |r| && r[i] in Priorities(table, tids) && r[j] !in Priorities(table, tids)
    ensures i < j
  {
    var ps, ts, r := Priorities(table, tids), AllTools(table, tids), Merged(table, tids);
    FirstOccurrencesOrdered(ps + ts);
    FirstIndexSplits(ps, ts, r[i]);
    FirstIndexSplits(ps, ts, r[j]);
  }

  // ---------- The order of the merge ----------

  /** The first technique that names x: as its priority, or among its tools. */
  predicate FirstPriority(table: Table, tids: seq<string>, x: Tool, i: nat) {
    && i < |tids| && x != "" && GetRouting(table, tids[i]).priority == x
    && forall j :: 0 <= j < i ==> GetRouting(table, tids[j]).priority != x
  }

  predicate FirstNamed(table: Table, tids: seq<string>, x: Tool, i: nat) {
    && i < |tids| && x in GetRouting(table, tids[i]).tools
    && forall j :: 0 <= j < i ==> x !in GetRouting(table, tids[j]).tools
  }

  function Position(xs: seq<Tool>, x: Tool): nat { if x in xs then FirstIndex(xs, x) else |xs| }

  lemma PositionPlus(xs: seq<Tool>, ys: seq<Tool>, x: Tool)
    ensures Position(xs + ys, x) == if x in xs then Position(xs, x) else |xs| + Position(ys, x)
    decreases |xs|
  {
    if xs == [] {
      assert xs + ys == ys;
    } else {
      assert (xs + ys)[1..] == xs[1..] + ys && (xs + ys)[0] == xs[0];
      PositionPlus(xs[1..], ys, x);
    }
  }

  /** Tools are offered in the order of the techniques that name them first, and of one technique in the
      order of its entry. */
  lemma {:induction false} ToolsInOrder(table: Table, tids: seq<string>, x: Tool, y: Tool, i: nat, j: nat)
    requires FirstNamed(table, tids, x, i) && FirstNamed(table, tids, y, j)
    requires i < j || (i == j && FirstIndex(GetRouting(table, tids[i]).tools, x)
                                 < FirstIndex(GetRouting(table, tids[i]).tools, y))
    ensures Position(AllTools(table, tids), x) < Position(AllTools(table, tids), y)
    decreases |tids|
  {
    var n := |tids| - 1;
    var init, tools := tids[..n], GetRouting(table, tids[n]).tools;
    PositionPlus(AllTools(table, init), tools, x);
    PositionPlus(AllTools(table, init), tools, y);
    NamedBefore(table, tids, x, i);
    NamedBefore(table, tids, y, j);
    if j < n {
      ToolsInOrder(table, init, x, y, i, j);
    } else if i < n {
      assert x in AllTools(table, init) && y !in AllTools(table, init);
    }
  }

  /** x is among the tools of a start of tids exactly if the start includes the first to name it. */
  lemma NamedBefore(table: Table, tids: seq<string>, x: Tool, i: nat)
    requires FirstNamed(table, tids, x, i)
    ensures var init := tids[..|tids| - 1];
            && (x in AllTools(table, init) <==> i < |init|)
            && (i < |init| ==> FirstNamed(table, init, x, i))
  {
    var init := tids[..|tids| - 1];
    ToolsOf(table, init, x);
    if i < |init| { assert init[i] == tids[i]; }
  }

  lemma {:induction false} ToolsOf(table: Table, tids: seq<string>, x: Tool)
    ensures x in AllTools(table, tids) <==> exists i :: 0 <= i < |tids| && x in GetRouting(table, tids[i]).tools
  {
    if tids != [] {
      var init := tids[..|tids| - 1];
      ToolsOf(table, init, x);
      assert tids == init + [tids[|tids| - 1]];
    }
  }

  lemma {:induction false} PrioritiesOf(table: Table, tids: seq<string>, x: Tool)
    ensures x in Priorities(table, tids)
            <==> x != "" && exists i :: 0 <= i < |tids| && GetRouting(table, tids[i]).priority == x
  {
    if tids != [] {
      var init := tids[..|tids| - 1];
      PrioritiesOf(table, init, x);
      assert tids == init + [tids[|tids| - 1]];
    }
  }

  lemma {:induction false} PrioritiesInOrder(table: Table, tids: seq<string>, x: Tool, y: Tool, i: nat, j: nat)
    requires FirstPriority(table, tids, x, i) && FirstPriority(table, tids, y, j) && i < j
    ensures Position(Priorities(table, tids), x) < Position(Priorities(table, tids), y)
    decreases |tids|
  {
    var n := |tids| - 1;
    var init, p := tids[..n], GetRouting(table, tids[n]).priority;
    var last := if p != "" then [p] else [];
    PositionPlus(Priorities(table, init), last, x);
    PositionPlus(Priorities(table, init), last, y);
    PrioritiesOf(table, init, x);
    PrioritiesOf(table, init, y);
    assert init[i] == tids[i];
    if j < n {
      assert init[j] == tids[j];
      PrioritiesInOrder(table, init, x, y, i, j);
    }
  }

  predicate NoPriority(table: Table, tids: seq<string>, x: Tool) {
    forall tid <- tids :: GetRouting(table, tid).priority != x
  }

  /** The order in which tools are fired: first every technique's priority tool, in the order of the
      techniques; then the other tools, by technique and within its entry in the entry's order. */
  lemma MergeInOrder(table: Table, tids: seq<string>, a: nat, b: nat, i: nat, j: nat)
    requires var r := Merged(table, tids); a < |r| && b < |r|
    requires var r := Merged(table, tids);
             || (FirstPriority(table, tids, r[a], i) && FirstPriority(table, tids, r[b], j) && i < j)
             || (FirstPriority(table, tids, r[a], i) && NoPriority(table, tids, r[b]))
             || (&& NoPriority(table, tids, r[a]) && NoPriority(table, tids, r[b])
                 && FirstNamed(table, tids, r[a], i) && FirstNamed(table, tids, r[b], j)
                 && (i < j || (i == j && FirstIndex(GetRouting(table, tids[i]).tools, r[a])
                                         < FirstIndex(GetRouting(table, tids[i]).tools, r[b]))))
    ensures a < b
  {
    var ps, ts, r := Priorities(table, tids), AllTools(table, tids), Merged(table, tids);
    var x, y := r[a], r[b];
    FirstOccurrencesOrdered(ps + ts);
    PositionPlus(ps, ts, x);
    PositionPlus(ps, ts, y);
    PrioritiesOf(table, tids, x);
    PrioritiesOf(table, tids, y);
    if x in ps && y in ps {
      PrioritiesInOrder(table, tids, x, y, i, j);
    } else if x !in ps {
      ToolsInOrder(table, tids, x, y, i, j);
    }
    assert Position(ps + ts, x) < Position(ps + ts, y);
    if b < a { assert false; }
  }

  // ---------- The burst ----------

  /** The tools with a parameter builder; the tool registry has the same nine. */
  const BUILDERS: set<Tool> := {
    "query_splunk", "query_crowdstrike", "lookup_threat_intel", "query_aws", "query_cmdb", "query_netflow",
    "query_dns_logs", "query_backup_systems", "lookup_vulncheck"
  }

  /** What firing a tool comes to: its builder has no parameters for this alert, it raised, or
      it returned something. */
  datatype Shot = NoParams | Raised | Returned(data: string)

  predicate Records(x: Tool, builders: set<Tool>, shots: Tool -> Shot) { x in builders && shots(x).Returned? }

  /** The tools that leave a record, in the order they are fired. */
  function Kept(names: seq<Tool>, builders: set<Tool>, shots: Tool -> Shot): seq<Tool> {
    if names == [] then []
    else
      var last := names[|names| - 1];
      Kept(names[..|names| - 1], builders, shots) + if Records(last, builders, shots) then [last] else []
  }

  lemma {:induction false} KeptAreDistinct(names: seq<Tool>, builders: set<Tool>, shots: Tool -> Shot)
    requires Distinct(names)
    ensures Distinct(Kept(names, builders, shots))
    ensures forall x :: x in Kept(names, builders, shots) <==> x in names && Records(x, builders, shots)
  {
    if names != [] {
      var init, last := names[..|names| - 1], names[|names| - 1];
      KeptAreDistinct(init, builders, shots);
      assert names == init + [last] && last !in init;
    }
  }

  lemma KeptStep(names: seq<Tool>, i: nat, builders: set<Tool>, shots: Tool -> Shot)
    requires Distinct(names) && i < |names|
    ensures names[i] !in Kept(names[..i], builders, shots)
    ensures Kept(names[..i + 1], builders, shots)
            == Kept(names[..i], builders, shots) + if Records(names[i], builders, shots) then [names[i]] else []
  {
    KeptAreDistinct(names[..i], builders, shots);
    assert names[..i + 1][..i] == names[..i];
  }

  /** data has one entry per record, and it is what the tool returned. */
  predicate Entries(data: map<Tool, string>, records: seq<Tool>, shots: Tool -> Shot) {
    && |data| == |records|
    && (forall x <- data :: x in records && shots(x) == Returned(data[x]))
    && (forall x <- records :: x in data)
  }

  lemma OneMoreEntry(data: map<Tool, string>, records: seq<Tool>, x: Tool, shots: Tool -> Shot)
    requires Entries(data, records, shots) && x !in records && shots(x).Returned?
    ensures Entries(data[x := shots(x).data], records + [x], shots)
  {
    assert x !in data;
  }

  /** Fires every routed tool that has a builder and parameters; one record per tool that returned. */
  method RunBurstEnrichment(table: Table, tids: seq<string>, builders: set<Tool>, shots: Tool -> Shot)
    returns (data: map<Tool, string>, records: seq<Tool>)
    ensures records == Kept(Merged(table, tids), builders, shots) && Distinct(records)
    ensures forall x :: x in records <==> x in Merged(table, tids) && x in builders && shots(x).Returned?
    ensures Entries(data, records, shots)
    ensures |records| <= |builders|
  {
    var names := GetToolsForTechniques(table, tids);
    MergeIsASet(table, tids);
    data, records := map[], [];
    for i := 0 to |names|
      invariant records == Kept(names[..i], builders, shots) && Entries(data, records, shots)
    {
      KeptStep(names, i, builders, shots);
      if names[i] in builders && shots(names[i]).Returned? {
        OneMoreEntry(data, records, names[i], shots);
        data := data[names[i] := shots(names[i]).data];
        records := records + [names[i]];
      }
    }
    assert names[..|names|] == names;
    KeptAreDistinct(names, builders, shots);
    SubsetIsSmaller(data.Keys, builders);
  }

  lemma SubsetIsSmaller<T>(a: set<T>, b: set<T>)
    requires a <= b
    ensures |a| <= |b|
  {
    assert b == a + (b - a);
  }

  lemma NineBuilders()
    ensures |BUILDERS| <= 9
  {
  }

  lemma {:induction false} DistinctFit(xs: seq<Tool>, s: set<Tool>)
    requires Distinct(xs) && forall x <- xs :: x in s
    ensures |xs| <= |s|
  {
    if xs != [] {
      var init, last := xs[..|xs| - 1], xs[|xs| - 1];
      DistinctFit(init, s - {last});
    }
  }

  /** A burst over the registered builders leaves at most nine records, whatever is routed. */
  lemma BurstHasNineRecords(table: Table, tids: seq<string>, shots: Tool -> Shot)
    ensures |Kept(Merged(table, tids), BUILDERS, shots)| <= 9
  {
    MergeIsASet(table, tids);
    KeptAreDistinct(Merged(table, tids), BUILDERS, shots);
    DistinctFit(Kept(Merged(table, tids), BUILDERS, shots), BUILDERS);
    NineBuilders();
  }
}
