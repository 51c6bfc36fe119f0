/**
 * The drama hook: the fetched posts, the analyses kept per post id in a JavaScript `Map`
 * (insertion-ordered), and the queries over them: the top drama, drama by category and the
 * statistics of all analyses.
 */
module SueYourEx {
  import opened Wrappers
  import opened Text
  import opened Sorting
  import opened Reddit

  const TopIssueCount := 5

  /** A `Map<string, LegalAnalysisOfPost>` as its entries in insertion order. */
  type Store = seq<(string, Analysis)>

  predicate KeysDistinct(store: Store) {
    forall i, j | 0 <= i < j < |store| :: store[i].0 != store[j].0
  }

  predicate HasKey(store: Store, id: string) {
    exists i | 0 <= i < |store| :: store[i].0 == id
  }

  /** `map.get(id)`. */
  function Lookup(store: Store, id: string): (r: Option<Analysis>)
    ensures r.None? <==> !HasKey(store, id)
  {
    if store == [] then None
    else if store[0].0 == id then Some(store[0].1)
    else
      var r := Lookup(store[1..], id);
      assert HasKey(store[1..], id) ==> HasKey(store, id) by {
        if HasKey(store[1..], id) {
          var i :| 0 <= i < |store[1..]| && store[1..][i].0 == id;
          assert store[i + 1].0 == id;
        }
      }
      r
  }

  /** `map.set(id, a)`: a known id keeps its place and takes the new value; a new one goes last. */
  function Stored(store: Store, id: string, a: Analysis): (r: Store)
    ensures |r| == if HasKey(store, id) then |store| else |store| + 1
  {
    if store == [] then [(id, a)]
    else if store[0].0 == id then [(id, a)] + store[1..]
    else
      var r := Stored(store[1..], id, a);
      assert HasKey(store, id) <==> HasKey(store[1..], id) by {
        if HasKey(store, id) {
          var i :| 0 <= i < |store| && store[i].0 == id;
          assert i > 0 && store[1..][i - 1].0 == id;
        }
        if HasKey(store[1..], id) {
          var i :| 0 <= i < |store[1..]| && store[1..][i].0 == id;
          assert store[i + 1].0 == id;
        }
      }
      [store[0]] + r
  }

  /** After `set`, the id maps to the new analysis and every other id to what it mapped to. */
  lemma {:induction false} LookupStored(store: Store, id: string, a: Analysis, other: string)
    ensures Lookup(Stored(store, id, a), other) == if other == id then Some(a) else Lookup(store, other)
  {
    if store != [] && store[0].0 != id {
      LookupStored(store[1..], id, a, other);
    }
  }

  lemma {:induction false} StoredKeys(store: Store, id: string, a: Analysis, key: string)
    ensures HasKey(Stored(store, id, a), key) <==> key == id || HasKey(store, key)
  {
    var r := Stored(store, id, a);
    assert HasKey(r, key) <==> Lookup(r, key).Some?;
    LookupStored(store, id, a, key);
  }

  lemma {:induction false} StoredKeepsDistinct(store: Store, id: string, a: Analysis)
    requires KeysDistinct(store)
    ensures KeysDistinct(Stored(store, id, a))
  {
    if store != [] && store[0].0 != id {
      var tail := store[1..];
      assert KeysDistinct(tail) by {
        forall i, j | 0 <= i < j < |tail| ensures tail[i].0 != tail[j].0 {
          assert tail[i] == store[i + 1] && tail[j] == store[j + 1];
        }
      }
      StoredKeepsDistinct(tail, id, a);
      var rest := Stored(tail, id, a);
      forall j | 0 <= j < |rest| ensures rest[j].0 != store[0].0 {
        StoredKeys(tail, id, a, rest[j].0);
        assert HasKey(rest, rest[j].0);
        if HasKey(tail, rest[j].0) {
          var i :| 0 <= i < |tail| && tail[i].0 == rest[j].0;
          assert store[i + 1] == tail[i];
        }
      }
    } else if store != [] {
      forall i, j | 0 <= i < j < |store| ensures Stored(store, id, a)[i].0 != Stored(store, id, a)[j].0 {
        if i > 0 {
          assert Stored(store, id, a)[i] == store[i];
        }
        assert Stored(store, id, a)[j] == store[j];
      }
    }
  }

  /** An analysis as `analyzeLegalIssues` makes it: its issues in table order. */
  predicate WellFormed(a: Analysis) {
    Ordered(a.legalIssues)
  }

  /** `Array.from(map.values())`. */
  function Values(store: Store): (r: seq<Analysis>)
    ensures |r| == |store| && forall i | 0 <= i < |store| :: r[i] == store[i].1
  {
    if store == [] then [] else [store[0].1] + Values(store[1..])
  }

  /** A post paired with its analysis, if it has one. */
  datatype Item = Item(post: Post, analysis: Option<Analysis>)

  function Paired(posts: seq<Post>, store: Store): (r: seq<Item>)
    ensures |r| == |posts|
    ensures forall i | 0 <= i < |posts| :: r[i] == Item(posts[i], Lookup(store, posts[i].id))
  {
    seq(|posts|, i requires 0 <= i < |posts| => Item(posts[i], Lookup(store, posts[i].id)))
  }

  function Analysed(items: seq<Item>): (r: seq<Item>)
    ensures forall x :: x in r <==> x in items && x.analysis.Some?
  {
    if items == [] then []
    else (if items[0].analysis.Some? then [items[0]] else []) + Analysed(items[1..])
  }

  /** `analysis?.entertainmentValue || 0`. */
  function Entertainment(item: Item): int {
    if item.analysis.Some? then item.analysis.value.entertainmentValue else 0
  }

  /** `getTopDrama(count)`. */
  function TopDrama(posts: seq<Post>, store: Store, count: nat): seq<Item> {
    TakeFirst(SortDesc(Analysed(Paired(posts, store)), Entertainment), count)
  }

  /** The top drama holds at most `count` analysed posts with their stored analyses, most entertaining first. */
  lemma TopDramaItems(posts: seq<Post>, store: Store, count: nat)
    ensures var r := TopDrama(posts, store, count);
            && |r| <= count
            && SortedDesc(r, Entertainment)
            && (forall x | x in r :: x.post in posts && x.analysis.Some? && x.analysis == Lookup(store, x.post.id))
  {
    var items := Analysed(Paired(posts, store));
    TopOf(items, Entertainment, count);
    var r := TopDrama(posts, store, count);
    forall x | x in r ensures x.post in posts && x.analysis.Some? && x.analysis == Lookup(store, x.post.id) {
      assert x in Paired(posts, store);
    }
  }

  /** No analysed post left out of the top drama is more entertaining than one shown. */
  lemma TopDramaBest(posts: seq<Post>, store: Store, count: nat, p: Post)
    requires p in posts && Lookup(store, p.id).Some?
    requires Item(p, Lookup(store, p.id)) !in TopDrama(posts, store, count)
    ensures forall i | 0 <= i < |TopDrama(posts, store, count)| ::
              Lookup(store, p.id).value.entertainmentValue <= Entertainment(TopDrama(posts, store, count)[i])
  {
    var items := Analysed(Paired(posts, store));
    TopExcludes(items, Entertainment, count);
    var k :| 0 <= k < |posts| && posts[k] == p;
    assert Paired(posts, store)[k] == Item(p, Lookup(store, p.id));
    var x := Item(p, Lookup(store, p.id));
    assert x in items;
    var top := TopDrama(posts, store, count);
    assert top == TakeFirst(SortDesc(items, Entertainment), count);
    assert x !in top;
    forall i | 0 <= i < |top| ensures Lookup(store, p.id).value.entertainmentValue <= Entertainment(top[i]) {
      assert Entertainment(x) <= Entertainment(top[i]);
    }
  }

  /** The filter of `getDramaByCategory`; an unanalysed post can still match by subreddit. */
  predicate InCategory(item: Item, category: string) {
    || (item.analysis.Some? && exists i | i in item.analysis.value.legalIssues :: IssueName(i) == Lower(category))
    || Contains(Lower(item.post.subreddit), Lower(category))
  }

  function Filtered(items: seq<Item>, category: string): (r: seq<Item>)
    ensures forall x :: x in r <==> x in items && InCategory(x, category)
  {
    if items == [] then []
    else (if InCategory(items[0], category) then [items[0]] else []) + Filtered(items[1..], category)
  }

  /** `getDramaByCategory(category)`. */
  function DramaByCategory(posts: seq<Post>, store: Store, category: string): (r: seq<Item>)
    ensures forall x :: x in r <==> && x in Paired(posts, store)
                                     && (|| (x.analysis.Some? && exists i | i in x.analysis.value.legalIssues :: IssueName(i) == Lower(category))
                                         || Contains(Lower(x.post.subreddit), Lower(category)))
  {
    Filtered(Paired(posts, store), category)
  }

  /** The count kept for each issue, in the order of first appearance (`issueCount`). */
  type Table = seq<(Issue, nat)>

  predicate TableDistinct(t: Table) {
    forall i, j | 0 <= i < j < |t| :: t[i].0 != t[j].0
  }

  function CountOf(t: Table, issue: Issue): nat {
    if t == [] then 0 else if t[0].0 == issue then t[0].1 else CountOf(t[1..], issue)
  }

  /** `issueCount[issue] = (issueCount[issue] || 0) + 1`. */
  function Tally(t: Table, issue: Issue): Table {
    if t == [] then [(issue, 1)]
    else if t[0].0 == issue then [(issue, t[0].1 + 1)] + t[1..]
    else [t[0]] + Tally(t[1..], issue)
  }

  function TallyAll(t: Table, issues: seq<Issue>): Table {
    if issues == [] then t else Tally(TallyAll(t, issues[..|issues| - 1]), issues[|issues| - 1])
  }

  /** The issue table after the nested loops over all analyses. */
  function IssueTable(values: seq<Analysis>): Table {
    if values == [] then [] else TallyAll(IssueTable(values[..|values| - 1]), values[|values| - 1].legalIssues)
  }

  function Count(entry: (Issue, nat)): int {
    entry.1
  }

  function TopIssues(values: seq<Analysis>): seq<(Issue, nat)> {
    TakeFirst(SortDesc(IssueTable(values), Count), TopIssueCount)
  }

  function TotalEntertainment(values: seq<Analysis>): int {
    if values == [] then 0
    else TotalEntertainment(values[..|values| - 1]) + values[|values| - 1].entertainmentValue
  }

  /** `Math.round(average * 10) / 10`. */
  function Average(total: int, n: nat): real
    requires n > 0
  {
    Round(total as real / n as real * 10.0) as real / 10.0
  }

  function SeverityCount(values: seq<Analysis>, severity: Severity): nat {
    if values == [] then 0
    else SeverityCount(values[..|values| - 1], severity) + (if values[|values| - 1].severity == severity then 1 else 0)
  }

  /** The number of analyses that list the issue. */
  function Listing(values: seq<Analysis>, issue: Issue): nat {
    if values == [] then 0
    else Listing(values[..|values| - 1], issue) + (if issue in values[|values| - 1].legalIssues then 1 else 0)
  }

  datatype Stats = Stats(totalAnalyzed: nat, averageEntertainment: real, topIssues: seq<(Issue, nat)>,
                         low: nat, medium: nat, high: nat)

  /**
   * `getAnalysisStats`: all zeros without analyses; otherwise the number of analyses, their
   * rounded mean score, the five most listed issues and the count per severity.
   */
  method GetAnalysisStats(store: Store) returns (st: Stats)
    ensures store == [] ==> st == Stats(0, 0.0, [], 0, 0, 0)
    ensures store != [] ==>
              var values := Values(store);
              st == Stats(|store|, Average(TotalEntertainment(values), |store|), TopIssues(values),
                          SeverityCount(values, Low), SeverityCount(values, Medium), SeverityCount(values, High))
  {
    var values := Values(store);
    if |values| == 0 {
      return Stats(0, 0.0, [], 0, 0, 0);
    }
    var total := SumEntertainment(values);
    var table := CountIssues(values);
    var low, medium, high := CountSeverities(values);
    st := Stats(|values|, Average(total, |values|), TakeFirst(SortDesc(table, Count), TopIssueCount),
                low, medium, high);
  }

  /** The `reduce` that sums the scores. */
  method SumEntertainment(values: seq<Analysis>) returns (total: int)
    ensures total == TotalEntertainment(values)
  {
    total := 0;
    var k := 0;
    while k < |values|
      invariant 0 <= k <= |values|
      invariant total == TotalEntertainment(values[..k])
    {
      assert values[..k + 1][..k] == values[..k];
      total := total + values[k].entertainmentValue;
      k := k + 1;
    }
    assert values[..k] == values;
  }

  /** The nested `forEach` loops that fill `issueCount`. */
  method CountIssues(values: seq<Analysis>) returns (table: Table)
    ensures table == IssueTable(values)
  {
    table := [];
    var k := 0;
    while k < |values|
      invariant 0 <= k <= |values|
      invariant table == IssueTable(values[..k])
    {
      var issues := values[k].legalIssues;
      var j := 0;
      while j < |issues|
        invariant 0 <= j <= |issues|
        invariant table == TallyAll(IssueTable(values[..k]), issues[..j])
      {
        assert issues[..j + 1][..j] == issues[..j];
        table := Tally(table, issues[j]);
        j := j + 1;
      }
      assert issues[..j] == issues;
      assert values[..k + 1][..k] == values[..k];
      k := k + 1;
    }
    assert values[..k] == values;
  }

  /** The `reduce` into the severity breakdown. */
  method CountSeverities(values: seq<Analysis>) returns (low: nat, medium: nat, high: nat)
    ensures low == SeverityCount(values, Low) && medium == SeverityCount(values, Medium)
    ensures high == SeverityCount(values, High)
  {
    low, medium, high := 0, 0, 0;
    var k := 0;
    while k < |values|
      invariant 0 <= k <= |values|
      invariant low == SeverityCount(values[..k], Low)
      invariant medium == SeverityCount(values[..k], Medium)
      invariant high == SeverityCount(values[..k], High)
    {
      assert values[..k + 1][..k] == values[..k];
      match values[k].severity {
        case Low => low := low + 1;
        case Medium => medium := medium + 1;
        case High => high := high + 1;
      }
      k := k + 1;
    }
    assert values[..k] == values;
  }

  /** Every analysis has exactly one severity. */
  lemma {:induction false} SeverityBreakdown(values: seq<Analysis>)
    ensures SeverityCount(values, Low) + SeverityCount(values, Medium) + SeverityCount(values, High) == |values|
  {
    if values != [] {
      SeverityBreakdown(values[..|values| - 1]);
    }
  }

  lemma {:induction false} TallyCount(t: Table, issue: Issue, other: Issue)
    ensures CountOf(Tally(t, issue), other) == CountOf(t, other) + (if other == issue then 1 else 0)
  {
    if t != [] && t[0].0 != issue {
      TallyCount(t[1..], issue, other);
    }
  }

  predicate HasIssue(t: Table, issue: Issue) {
    exists k | 0 <= k < |t| :: t[k].0 == issue
  }

  lemma HasIssueCons(t: Table, issue: Issue)
    requires t != []
    ensures HasIssue(t, issue) <==> t[0].0 == issue || HasIssue(t[1..], issue)
  {
    if HasIssue(t[1..], issue) {
      var k :| 0 <= k < |t[1..]| && t[1..][k].0 == issue;
      assert t[k + 1].0 == issue;
    }
    if HasIssue(t, issue) && t[0].0 != issue {
      var k :| 0 <= k < |t| && t[k].0 == issue;
      assert t[1..][k - 1].0 == issue;
    }
  }

  lemma {:induction false} TallyKeys(t: Table, issue: Issue, x: Issue)
    ensures HasIssue(Tally(t, issue), x) <==> x == issue || HasIssue(t, x)
  {
    var r := Tally(t, issue);
    if t == [] {
      assert r[0].0 == issue;
    } else {
      HasIssueCons(t, x);
      HasIssueCons(r, x);
      if t[0].0 != issue {
        TallyKeys(t[1..], issue, x);
        assert r[1..] == Tally(t[1..], issue);
      } else {
        assert r[1..] == t[1..];
      }
    }
  }

  lemma {:induction false} TallyDistinct(t: Table, issue: Issue)
    requires TableDistinct(t)
    ensures TableDistinct(Tally(t, issue))
  {
    var r := Tally(t, issue);
    if t != [] && t[0].0 != issue {
      var tail := t[1..];
      assert TableDistinct(tail) by {
        forall i, j | 0 <= i < j < |tail| ensures tail[i].0 != tail[j].0 {
          assert tail[i] == t[i + 1] && tail[j] == t[j + 1];
        }
      }
      TallyDistinct(tail, issue);
      var rest := Tally(tail, issue);
      assert !HasIssue(tail, t[0].0) by {
        forall k | 0 <= k < |tail| ensures tail[k].0 != t[0].0 {
          assert tail[k] == t[k + 1];
        }
      }
      TallyKeys(tail, issue, t[0].0);
      forall i, j | 0 <= i < j < |r| ensures r[i].0 != r[j].0 {
        assert r[j] == rest[j - 1];
        if i > 0 {
          assert r[i] == rest[i - 1];
        }
      }
    } else if t != [] {
      forall i, j | 0 <= i < j < |r| ensures r[i].0 != r[j].0 {
        if i > 0 {
          assert r[i] == t[i];
        }
        assert r[j] == t[j];
      }
    }
  }

  lemma {:induction false} TallyAllFacts(t: Table, issues: seq<Issue>, other: Issue)
    requires TableDistinct(t)
    ensures TableDistinct(TallyAll(t, issues))
    ensures CountOf(TallyAll(t, issues), other) == CountOf(t, other) + NumberOfIssue(issues, other)
  {
    if issues != [] {
      var init := issues[..|issues| - 1];
      TallyAllFacts(t, init, other);
      TallyDistinct(TallyAll(t, init), issues[|issues| - 1]);
      TallyCount(TallyAll(t, init), issues[|issues| - 1], other);
    }
  }

  function NumberOfIssue(issues: seq<Issue>, issue: Issue): nat {
    if issues == [] then 0
    else NumberOfIssue(issues[..|issues| - 1], issue) + (if issues[|issues| - 1] == issue then 1 else 0)
  }

  /** In an issue list without repeats, an issue occurs once if listed and not at all otherwise. */
  lemma {:induction false} NumberOfOrdered(issues: seq<Issue>, issue: Issue)
    requires Ordered(issues)
    ensures NumberOfIssue(issues, issue) == if issue in issues then 1 else 0
  {
    if issues != [] {
      var init := issues[..|issues| - 1];
      var last := issues[|issues| - 1];
      OrderedInit(issues);
      NumberOfOrdered(init, issue);
      LastNotEarlier(issues);
      assert issues == init + [last];
    }
  }

  /** Dropping the last issue keeps the list in table order. */
  lemma OrderedInit(issues: seq<Issue>)
    requires Ordered(issues) && issues != []
    ensures Ordered(issues[..|issues| - 1])
  {
    var init := issues[..|issues| - 1];
    forall a, b | 0 <= a < b < |init| ensures Rank(init[a]) < Rank(init[b]) {
      assert init[a] == issues[a] && init[b] == issues[b];
    }
  }

  /** In table order the last issue is not listed earlier. */
  lemma LastNotEarlier(issues: seq<Issue>)
    requires Ordered(issues) && issues != []
    ensures issues[|issues| - 1] !in issues[..|issues| - 1]
  {
    var init := issues[..|issues| - 1];
    forall a | 0 <= a < |init| ensures init[a] != issues[|issues| - 1] {
      assert init[a] == issues[a];
    }
  }

  /**
   * Each issue's count is the number of analyses that list it, so at most the number of analyses,
   * and the table names each issue once.
   */
  lemma {:induction false} IssueCounts(values: seq<Analysis>, issue: Issue)
    requires forall k | 0 <= k < |values| :: WellFormed(values[k])
    ensures TableDistinct(IssueTable(values))
    ensures CountOf(IssueTable(values), issue) == Listing(values, issue) <= |values|
  {
    if values != [] {
      var init := values[..|values| - 1];
      var last := values[|values| - 1];
      IssueCounts(init, issue);
      TallyAllFacts(IssueTable(init), last.legalIssues, issue);
      NumberOfOrdered(last.legalIssues, issue);
    }
  }

  /** An entry of a table without repeated issues carries that issue's count. */
  lemma {:induction false} EntryCount(t: Table, k: nat)
    requires TableDistinct(t) && k < |t|
    ensures CountOf(t, t[k].0) == t[k].1
  {
    if k > 0 {
      var tail := t[1..];
      assert TableDistinct(tail) by {
        forall i, j | 0 <= i < j < |tail| ensures tail[i].0 != tail[j].0 {
          assert tail[i] == t[i + 1] && tail[j] == t[j + 1];
        }
      }
      EntryCount(tail, k - 1);
    }
  }

  /**
   * The top issues are at most five entries, most listed first, each with the number of
   * analyses that list it.
   */
  lemma TopIssuesShape(values: seq<Analysis>)
    requires forall k | 0 <= k < |values| :: WellFormed(values[k])
    ensures var top := TopIssues(values);
            && |top| <= TopIssueCount
            && SortedDesc(top, Count)
            && (forall e | e in top :: e.1 == Listing(values, e.0) <= |values|)
  {
    var table := IssueTable(values);
    TopOf(table, Count, TopIssueCount);
    forall e | e in TopIssues(values) ensures e.1 == Listing(values, e.0) <= |values| {
      assert e in table;
      var k :| 0 <= k < |table| && table[k] == e;
      IssueCounts(values, e.0);
      EntryCount(table, k);
    }
  }

  /** The drama hook's state. */
  class Hook {
    var posts: seq<Post>
    var analyses: Store
    var isLoading: bool
    var isAnalyzing: bool

    predicate Valid()
      reads this
    {
      KeysDistinct(analyses) && forall k | 0 <= k < |analyses| :: WellFormed(analyses[k].1)
    }

    constructor()
      ensures Valid() && posts == [] && analyses == [] && !isLoading && !isAnalyzing
    {
      posts := [];
      analyses := [];
      isLoading := false;
      isAnalyzing := false;
    }

    /** `fetchDrama(limit)`: the fetched posts replace the list. */
    method FetchDrama(clientConfigured: bool, fetched: Result<seq<Post>, string>, limit: nat, nowMs: int)
      modifies this
      ensures posts == FetchRelationshipDrama(clientConfigured, fetched, limit, nowMs)
      ensures analyses == old(analyses) && !isLoading && isAnalyzing == old(isAnalyzing)
    {
      isLoading := true;
      posts := FetchRelationshipDrama(clientConfigured, fetched, limit, nowMs);
      isLoading := false;
    }

    /** `analyzeDrama(post, jurisdiction)`: the analysis is stored under the post's id. */
    method AnalyzeDrama(post: Post, jurisdiction: string) returns (a: Analysis)
      requires Valid()
      modifies this
      ensures Valid()
      ensures a == AnalysisOf(post, jurisdiction)
      ensures a.post == post && a.legalIssues == DetectedIssues(PostText(post)) && a.jurisdiction == jurisdiction
      ensures analyses == Stored(old(analyses), post.id, a)
      ensures Lookup(analyses, post.id) == Some(a)
      ensures forall id | id != post.id :: Lookup(analyses, id) == Lookup(old(analyses), id)
      ensures posts == old(posts) && isLoading == old(isLoading) && !isAnalyzing
    {
      isAnalyzing := true;
      a := AnalyzeLegalIssues(post, jurisdiction);
      DetectedInTableOrder(PostText(post));
      StoredKeepsDistinct(analyses, post.id, a);
      StoredWellFormed(analyses, post.id, a);
      analyses := Stored(analyses, post.id, a);
      LookupStored(old(analyses), post.id, a, post.id);
      forall id | id != post.id ensures Lookup(analyses, id) == Lookup(old(analyses), id) {
        LookupStored(old(analyses), post.id, a, id);
      }
      isAnalyzing := false;
    }
  }

  lemma {:induction false} StoredWellFormed(store: Store, id: string, a: Analysis)
    requires WellFormed(a) && forall k | 0 <= k < |store| :: WellFormed(store[k].1)
    ensures forall k | 0 <= k < |Stored(store, id, a)| :: WellFormed(Stored(store, id, a)[k].1)
  {
    if store != [] && store[0].0 != id {
      StoredWellFormed(store[1..], id, a);
      var r := Stored(store, id, a);
      forall k | 0 <= k < |r| ensures WellFormed(r[k].1) {
        if k > 0 {
          assert r[k] == Stored(store[1..], id, a)[k - 1];
        }
      }
    }
  }
}
