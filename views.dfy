/**
 * Views derived from the session state on every render: the registry's
 * search filter, chunk totals, the two exports, source excerpts and the
 * feedback summary.
 */
module Views {
  import opened Wrappers
  import opened Text
  import opened Records

  // ----- Search filter (app.py:573-575) -----

  /** The search test: the term, lower-cased, occurs in the lower-cased document name. */
  predicate NameMatches(d: Document, term: string) {
    ContainsSub(Lower(d.name), Lower(term))
  }

  /** The list comprehension: the documents whose name matches, in registry order. */
  function MatchingDocuments(docs: seq<Document>, term: string): seq<Document>
    decreases |docs|
  {
    if docs == [] then []
    else (if NameMatches(docs[0], term) then [docs[0]] else []) + MatchingDocuments(docs[1..], term)
  }

  /** The filtered view: the registry itself for an empty term, else the matching documents. */
  function Filter(docs: seq<Document>, term: string): seq<Document> {
    if term == "" then docs else MatchingDocuments(docs, term)
  }

  /** `s` is `t` with some elements left out and the rest kept in order. */
  predicate IsSubsequence<T(==)>(s: seq<T>, t: seq<T>)
    decreases |t|
  {
    if t == [] then s == []
    else IsSubsequence(s, t[1..]) || (s != [] && s[0] == t[0] && IsSubsequence(s[1..], t[1..]))
  }

  lemma {:induction false} MatchingDocumentsExact(docs: seq<Document>, term: string)
    ensures IsSubsequence(MatchingDocuments(docs, term), docs)
    ensures forall d :: multiset(MatchingDocuments(docs, term))[d] ==
                        (if NameMatches(d, term) then multiset(docs)[d] else 0)
    ensures |MatchingDocuments(docs, term)| <= |docs|
    decreases |docs|
  {
    if docs != [] {
      MatchingDocumentsExact(docs[1..], term);
      assert docs == [docs[0]] + docs[1..];
      var rest := MatchingDocuments(docs[1..], term);
      if NameMatches(docs[0], term) {
        assert ([docs[0]] + rest)[1..] == rest;
      } else {
        assert [] + rest == rest;
      }
    }
  }

  /**
   * The filtered view is an order-preserving part of the registry holding
   * exactly the matching documents, each as often as the registry holds it;
   * an empty term shows the whole registry.
   */
  lemma FilterExact(docs: seq<Document>, term: string)
    ensures IsSubsequence(Filter(docs, term), docs)
    ensures forall d :: multiset(Filter(docs, term))[d] ==
                        (if NameMatches(d, term) then multiset(docs)[d] else 0)
    ensures term == "" ==> Filter(docs, term) == docs
    ensures |Filter(docs, term)| <= |docs|
  {
    MatchingDocumentsExact(docs, term);
    if term == "" {
      EmptyTermMatchesAll(docs);
    }
  }

  /** The empty-term shortcut agrees with the comprehension: every name contains the empty term. */
  lemma {:induction false} EmptyTermMatchesAll(docs: seq<Document>)
    ensures MatchingDocuments(docs, "") == docs
    decreases |docs|
  {
    if docs != [] {
      assert Lower("") == "";
      assert NameMatches(docs[0], "");
      EmptyTermMatchesAll(docs[1..]);
      assert [docs[0]] + docs[1..] == docs;
    }
  }

  // ----- Chunk totals (app.py:189, 626, 664) -----

  /** The sum of the documents' chunk counts. */
  function TotalChunks(docs: seq<Document>): int
    decreases |docs|
  {
    if docs == [] then 0 else docs[0].chunks + TotalChunks(docs[1..])
  }

  lemma {:induction false} TotalChunksAppend(a: seq<Document>, b: seq<Document>)
    ensures TotalChunks(a + b) == TotalChunks(a) + TotalChunks(b)
    decreases |a|
  {
    if a == [] {
      assert a + b == b;
    } else {
      TotalChunksAppend(a[1..], b);
      assert (a + b)[1..] == a[1..] + b;
    }
  }

  /** Removing the document at `i` lowers the total by exactly that document's chunks. */
  lemma TotalChunksRemove(docs: seq<Document>, i: nat)
    requires i < |docs|
    ensures TotalChunks(docs[..i] + docs[i + 1..]) == TotalChunks(docs) - docs[i].chunks
  {
    assert docs == docs[..i] + ([docs[i]] + docs[i + 1..]);
    TotalChunksAppend(docs[..i], [docs[i]] + docs[i + 1..]);
    TotalChunksAppend(docs[..i], docs[i + 1..]);
  }

  // ----- Exports (app.py:149-160, 622-627) -----

  /** The chat export's record; the JSON text itself is not modelled. */
  datatype ChatExport = ChatExport(
    chatHistory: seq<Conversation>,
    feedback: map<nat, FeedbackEntry>,
    exportDate: string,
    totalConversations: nat,
    totalMessages: nat)

  /** The chat export, offered only while the history is non-empty. */
  function ExportChat(history: seq<Conversation>, feedback: map<nat, FeedbackEntry>, stamp: string): (r: Option<ChatExport>)
    ensures r.Some? <==> history != []
    ensures r.Some? ==> r.value.chatHistory == history && r.value.feedback == feedback && r.value.exportDate == stamp
    ensures r.Some? ==> r.value.totalConversations == |history| && r.value.totalMessages == 2 * r.value.totalConversations
  {
    if history == [] then None
    else Some(ChatExport(history, feedback, stamp, |history|, |history| * 2))
  }

  datatype DocumentsExport = DocumentsExport(documents: seq<Document>, exportDate: string, totalChunks: int)

  /** The document-list export, offered only while the registry is non-empty. */
  function ExportDocuments(docs: seq<Document>, stamp: string): (r: Option<DocumentsExport>)
    ensures r.Some? <==> docs != []
    ensures r.Some? ==> r.value.documents == docs && r.value.exportDate == stamp
    ensures r.Some? ==> r.value.totalChunks == TotalChunks(docs)
  {
    if docs == [] then None else Some(DocumentsExport(docs, stamp, TotalChunks(docs)))
  }

  // ----- Source excerpts (app.py:299-302) -----

  const ExcerptLength: nat := 300

  /** A source's displayed text: at most 300 characters of it, followed by "..." when it was cut. */
  function Excerpt(content: string): (r: string)
    ensures |r| <= ExcerptLength + 3
    ensures Take(content, ExcerptLength) <= r
    ensures |content| <= ExcerptLength ==> r == content
    ensures |content| > ExcerptLength ==> r[ExcerptLength..] == "..."
  {
    if |content| > ExcerptLength then content[..ExcerptLength] + "..." else content
  }

  // ----- Feedback summary (app.py:176, 733-747) -----

  /** The conversations rated with the given kind. */
  function RatedAs(fb: map<nat, FeedbackEntry>, kind: FeedbackKind): set<nat> {
    set k | k in fb && fb[k].kind == kind
  }

  function GoodCount(fb: map<nat, FeedbackEntry>): nat {
    |RatedAs(fb, Good)|
  }

  function BadCount(fb: map<nat, FeedbackEntry>): nat {
    |RatedAs(fb, Bad)|
  }

  /** Every rating is good or bad, so the two counts add up to the number of rated conversations. */
  lemma FeedbackCountsPartition(fb: map<nat, FeedbackEntry>)
    ensures GoodCount(fb) + BadCount(fb) == |fb|
  {
    var good := RatedAs(fb, Good);
    var bad := RatedAs(fb, Bad);
    assert good + bad == fb.Keys;
    assert good * bad == {};
    assert |good + bad| == |good| + |bad|;
  }

  /**
   * Ratings keyed by conversations below `n` number at most `n`, so the
   * satisfaction denominator never exceeds the number of conversations.
   */
  lemma {:induction false} RatingsBelow(fb: map<nat, FeedbackEntry>, n: nat)
    requires forall k | k in fb :: k < n
    ensures |fb| <= n
  {
    if n == 0 {
      assert fb.Keys == {};
    } else {
      var rest := fb - {n - 1};
      RatingsBelow(rest, n - 1);
      assert fb.Keys <= rest.Keys + {n - 1};
      assert |fb.Keys| <= |rest.Keys + {n - 1}| <= |rest.Keys| + 1;
    }
  }

  /** Re-rating conversation `i` replaces its old rating in the good count. */
  lemma GoodCountAfterRating(fb: map<nat, FeedbackEntry>, i: nat, e: FeedbackEntry)
    ensures GoodCount(fb[i := e]) ==
      GoodCount(fb) - (if i in fb && fb[i].kind == Good then 1 else 0) + (if e.kind == Good then 1 else 0)
  {
    var rated := fb[i := e];
    var before := RatedAs(fb, Good);
    var after := RatedAs(rated, Good);
    var others := before - {i};
    assert i !in others;
    if e.kind == Good {
      assert after == others + {i};
      assert |after| == |others| + 1;
    } else {
      assert after == others;
    }
    if i in fb && fb[i].kind == Good {
      assert before == others + {i};
      assert |before| == |others| + 1;
    } else {
      assert before == others;
    }
  }

  /** The satisfaction figure: "N/A", or good ratings times 100 over all ratings. */
  datatype Satisfaction = NotAvailable | Percent(numerator: nat, denominator: nat)

  function SatisfactionRate(fb: map<nat, FeedbackEntry>): (r: Satisfaction)
    ensures r.NotAvailable? <==> |fb| == 0
    ensures r.Percent? ==> r.denominator == |fb| && r.numerator == 100 * GoodCount(fb)
    ensures r.Percent? ==> r.numerator <= 100 * r.denominator
  {
    if |fb| == 0 then NotAvailable
    else FeedbackCountsPartition(fb); Percent(100 * GoodCount(fb), |fb|)
  }

  /** Two good ratings and one bad one give 200/3, that is 66.67 percent. */
  lemma SatisfactionTwoGoodOneBad(stamp: string)
    ensures SatisfactionRate(map[0 := FeedbackEntry(Good, stamp), 1 := FeedbackEntry(Good, stamp), 2 := FeedbackEntry(Bad, stamp)])
      == Percent(200, 3)
  {
    var fb := map[0 := FeedbackEntry(Good, stamp), 1 := FeedbackEntry(Good, stamp), 2 := FeedbackEntry(Bad, stamp)];
    assert fb.Keys == {0, 1, 2};
    assert RatedAs(fb, Good) == {0, 1};
  }
}
