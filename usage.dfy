/**
 * The "Document Usage" listing (app.py:681-693): a dictionary from scope to
 * number of queries, filled by a loop over `chat_history`, then listed by
 * non-increasing count with Python's stable `sorted`.
 */
module Usage {
  import opened Wrappers
  import opened Records

  /** `chat.get('document_searched', 'All Documents')`: error entries count as "All Documents". */
  function ScopeOf(c: Conversation): string {
    c.documentSearched.GetOr(AllDocuments)
  }

  /** How many entries of the history have the given scope. */
  function Occurrences(history: seq<Conversation>, name: string): nat
    decreases |history|
  {
    if history == [] then 0
    else Occurrences(history[..|history| - 1], name) + (if ScopeOf(history[|history| - 1]) == name then 1 else 0)
  }

  lemma {:induction false} OccurrencesOfPresent(history: seq<Conversation>, i: nat)
    requires i < |history|
    ensures Occurrences(history, ScopeOf(history[i])) >= 1
    decreases |history|
  {
    if i < |history| - 1 {
      OccurrencesOfPresent(history[..|history| - 1], i);
    }
  }

  /** A listed scope with its number of queries. */
  type Entry = (string, nat)

  function SumCounts(entries: seq<Entry>): nat
    decreases |entries|
  {
    if entries == [] then 0 else entries[0].1 + SumCounts(entries[1..])
  }

  predicate SortedByCount(entries: seq<Entry>) {
    forall i, j | 0 <= i < j < |entries| :: entries[i].1 >= entries[j].1
  }

  predicate DistinctNames(entries: seq<Entry>) {
    forall i, j | 0 <= i < j < |entries| :: entries[i].0 != entries[j].0
  }

  /** Puts `x` after every entry whose count is at least its own, so equal counts keep their order. */
  function InsertByCount(x: Entry, sorted: seq<Entry>): seq<Entry>
    decreases |sorted|
  {
    if sorted == [] then [x]
    else if sorted[0].1 >= x.1 then [sorted[0]] + InsertByCount(x, sorted[1..])
    else [x] + sorted
  }

  /** `sorted(entries, key=count, reverse=True)`: a stable sort by non-increasing count. */
  function SortByCount(entries: seq<Entry>): seq<Entry>
    decreases |entries|
  {
    if entries == [] then []
    else InsertByCount(entries[|entries| - 1], SortByCount(entries[..|entries| - 1]))
  }

  lemma {:induction false} SumCountsAppend(s: seq<Entry>, x: Entry)
    ensures SumCounts(s + [x]) == SumCounts(s) + x.1
    decreases |s|
  {
    if s == [] {
      assert s + [x] == [x];
    } else {
      SumCountsAppend(s[1..], x);
      assert (s + [x])[1..] == s[1..] + [x];
    }
  }

  lemma {:induction false} SumCountsUpdate(s: seq<Entry>, p: nat, e: Entry)
    requires p < |s|
    ensures SumCounts(s[p := e]) == SumCounts(s) - s[p].1 + e.1
    decreases |s|
  {
    if p > 0 {
      SumCountsUpdate(s[1..], p - 1, e);
      assert s[p := e][1..] == s[1..][p - 1 := e];
    }
  }

  lemma {:induction false} InsertByCountElements(x: Entry, s: seq<Entry>)
    ensures multiset(InsertByCount(x, s)) == multiset(s) + multiset{x}
    ensures SumCounts(InsertByCount(x, s)) == SumCounts(s) + x.1
    decreases |s|
  {
    if s != [] {
      assert s == [s[0]] + s[1..];
      if s[0].1 >= x.1 {
        InsertByCountElements(x, s[1..]);
        assert ([s[0]] + InsertByCount(x, s[1..]))[1..] == InsertByCount(x, s[1..]);
      } else {
        assert ([x] + s)[1..] == s;
      }
    }
  }

  /** Every entry of `InsertByCount(x, s)` is `x` or an entry of `s`. */
  lemma InsertByCountMember(x: Entry, s: seq<Entry>, y: Entry)
    requires y in InsertByCount(x, s)
    ensures y == x || y in s
  {
    InsertByCountElements(x, s);
    assert y in multiset(InsertByCount(x, s));
  }

  lemma {:induction false} InsertByCountSorted(x: Entry, s: seq<Entry>)
    requires SortedByCount(s)
    ensures SortedByCount(InsertByCount(x, s))
    decreases |s|
  {
    if s != [] && s[0].1 >= x.1 {
      var rest := InsertByCount(x, s[1..]);
      InsertByCountSorted(x, s[1..]);
      forall j | 0 <= j < |rest| ensures s[0].1 >= rest[j].1 {
        InsertByCountMember(x, s[1..], rest[j]);
      }
      assert ([s[0]] + rest)[1..] == rest;
    }
  }

  lemma {:induction false} InsertByCountDistinct(x: Entry, s: seq<Entry>)
    requires DistinctNames(s)
    requires forall y | y in s :: y.0 != x.0
    ensures DistinctNames(InsertByCount(x, s))
    decreases |s|
  {
    if s != [] {
      if s[0].1 >= x.1 {
        var rest := InsertByCount(x, s[1..]);
        InsertByCountDistinct(x, s[1..]);
        forall j | 0 <= j < |rest| ensures s[0].0 != rest[j].0 {
          InsertByCountMember(x, s[1..], rest[j]);
          if rest[j] != x {
            var k :| 0 <= k < |s[1..]| && s[1..][k] == rest[j];
            assert s[k + 1] == rest[j];
          }
        }
        assert ([s[0]] + rest)[1..] == rest;
      } else {
        assert ([x] + s)[1..] == s;
        assert s[0] in s;
      }
    }
  }

  /** The listing is ordered by count, is a rearrangement of its input, and keeps the total. */
  lemma {:induction false} SortByCountFacts(entries: seq<Entry>)
    ensures SortedByCount(SortByCount(entries))
    ensures multiset(SortByCount(entries)) == multiset(entries)
    ensures SumCounts(SortByCount(entries)) == SumCounts(entries)
    ensures DistinctNames(entries) ==> DistinctNames(SortByCount(entries))
    decreases |entries|
  {
    if entries != [] {
      var init := entries[..|entries| - 1];
      var last := entries[|entries| - 1];
      assert entries == init + [last];
      SortByCountFacts(init);
      var sortedInit := SortByCount(init);
      if DistinctNames(entries) {
        forall y | y in sortedInit ensures y.0 != last.0 {
          assert y in multiset(init);
          var k :| 0 <= k < |init| && init[k] == y;
          assert entries[k] == y;
        }
      }
      InsertByCountElements(last, sortedInit);
      InsertByCountSorted(last, sortedInit);
      if DistinctNames(entries) {
        InsertByCountDistinct(last, sortedInit);
      }
      SumCountsAppend(init, last);
    }
  }

  /** The dictionary's items in insertion order. */
  function Items(order: seq<string>, counts: map<string, nat>): (r: seq<Entry>)
    requires forall k | k in order :: k in counts
    ensures |r| == |order|
  {
    seq(|order|, j requires 0 <= j < |order| => (order[j], counts[order[j]]))
  }

  /** Adding one to the count of a listed scope adds one to the total. */
  lemma ItemsBump(order: seq<string>, counts: map<string, nat>, p: nat)
    requires forall k | k in order :: k in counts
    requires forall j, l | 0 <= j < l < |order| :: order[j] != order[l]
    requires p < |order|
    ensures var bumped := counts[order[p] := counts[order[p]] + 1];
      SumCounts(Items(order, bumped)) == SumCounts(Items(order, counts)) + 1
  {
    var bumped := counts[order[p] := counts[order[p]] + 1];
    var before := Items(order, counts);
    assert Items(order, bumped) == before[p := (order[p], bumped[order[p]])];
    SumCountsUpdate(before, p, (order[p], bumped[order[p]]));
  }

  /** Listing a new scope with count one adds one to the total. */
  lemma ItemsExtend(order: seq<string>, counts: map<string, nat>, name: string)
    requires forall k | k in order :: k in counts
    requires name !in order
    ensures SumCounts(Items(order + [name], counts[name := 1])) == SumCounts(Items(order, counts)) + 1
  {
    var before := Items(order, counts);
    assert Items(order + [name], counts[name := 1]) == before + [(name, 1)];
    SumCountsAppend(before, (name, 1));
  }

  /**
   * What the loop has built after reading `seen`: `order` lists each scope of
   * `seen` once, in order of first use, and `counts` maps each to its number
   * of entries.
   */
  ghost predicate Tally(seen: seq<Conversation>, order: seq<string>, counts: map<string, nat>) {
    && (forall k :: k in counts <==> k in order)
    && (forall j, l | 0 <= j < l < |order| :: order[j] != order[l])
    && (forall k | k in counts :: counts[k] == Occurrences(seen, k) && counts[k] >= 1)
    && (forall k | k !in counts :: Occurrences(seen, k) == 0)
    && SumCounts(Items(order, counts)) == |seen|
  }

  lemma TallyStep(seen: seq<Conversation>, c: Conversation, order: seq<string>, counts: map<string, nat>)
    requires Tally(seen, order, counts)
    ensures var name := ScopeOf(c);
      if name in counts then Tally(seen + [c], order, counts[name := counts[name] + 1])
      else Tally(seen + [c], order + [name], counts[name := 1])
  {
    var name := ScopeOf(c);
    var next := seen + [c];
    assert next[..|seen|] == seen;
    assert forall k :: Occurrences(next, k) == Occurrences(seen, k) + (if name == k then 1 else 0);
    if name in counts {
      var p :| 0 <= p < |order| && order[p] == name;
      ItemsBump(order, counts, p);
    } else {
      ItemsExtend(order, counts, name);
    }
  }

  /** The sorted listing of a finished tally has every property `DocumentUsage` promises. */
  lemma ListingFacts(history: seq<Conversation>, order: seq<string>, counts: map<string, nat>)
    requires Tally(history, order, counts)
    ensures var usage := SortByCount(Items(order, counts));
      && SortedByCount(usage)
      && DistinctNames(usage)
      && SumCounts(usage) == |history|
      && (forall e | e in usage :: e.1 == Occurrences(history, e.0) && e.1 >= 1)
      && (forall i | 0 <= i < |history| ::
            (ScopeOf(history[i]), Occurrences(history, ScopeOf(history[i]))) in usage)
  {
    var items := Items(order, counts);
    SortByCountFacts(items);
    var usage := SortByCount(items);
    forall e | e in usage ensures e.1 == Occurrences(history, e.0) && e.1 >= 1 {
      assert e in multiset(usage);
      assert e in items;
    }
    forall i | 0 <= i < |history|
      ensures (ScopeOf(history[i]), Occurrences(history, ScopeOf(history[i]))) in usage
    {
      var name := ScopeOf(history[i]);
      OccurrencesOfPresent(history, i);
      var p :| 0 <= p < |order| && order[p] == name;
      assert items[p] == (name, Occurrences(history, name));
      assert items[p] in multiset(usage);
    }
  }

  /**
   * Counts the queries per scope and lists them by non-increasing count:
   * every scope of the history is listed once, with the number of entries
   * that have it, and the counts add up to the length of the history.
   */
  method DocumentUsage(history: seq<Conversation>) returns (usage: seq<Entry>)
    ensures SortedByCount(usage)
    ensures DistinctNames(usage)
    ensures SumCounts(usage) == |history|
    ensures forall e | e in usage :: e.1 == Occurrences(history, e.0) && e.1 >= 1
    ensures forall i | 0 <= i < |history| ::
      (ScopeOf(history[i]), Occurrences(history, ScopeOf(history[i]))) in usage
  {
    var counts: map<string, nat> := map[];
    var order: seq<string> := [];
    var i := 0;
    while i < |history|
      invariant 0 <= i <= |history|
      invariant Tally(history[..i], order, counts)
    {
      var name := ScopeOf(history[i]);
      assert history[..i + 1] == history[..i] + [history[i]];
      TallyStep(history[..i], history[i], order, counts);
      if name in counts {
        counts := counts[name := counts[name] + 1];
      } else {
        order := order + [name];
        counts := counts[name := 1];
      }
      i := i + 1;
    }
    assert history[..i] == history;
    ListingFacts(history, order, counts);
    usage := SortByCount(Items(order, counts));
  }
}
