/**
 * Short sessions driven through `SessionState`, each stating what the user
 * sees at the end. They are clients of the session's contracts only.
 */
module Scenarios {
  import opened Wrappers
  import opened Text
  import opened Records
  import Query
  import Upload
  import Views
  import opened Session

  const Stamp: string := "2024-01-01 00:00:00"

  /** A reply to an upload that names the document's id. */
  function UploadedWithId(id: string): UploadOutcome {
    UploadReply(200, UploadBody(Some(id), None, None, Some(4)))
  }

  /** A session holding two uploaded documents, "A.pdf" then "B.pdf". */
  method TwoDocuments() returns (s: SessionState)
    ensures fresh(s) && s.Valid()
    ensures |s.uploadedDocuments| == 2
    ensures s.uploadedDocuments[0].name == "A.pdf" && s.uploadedDocuments[0].documentId == "id-a"
    ensures s.uploadedDocuments[1].name == "B.pdf" && s.uploadedDocuments[1].documentId == "id-b"
    ensures s.chatHistory == [] && s.feedback == map[]
    ensures s.selectedDocument == None && s.chatWithDoc == None
  {
    s := new SessionState();
    var r := s.ApplyUploadOutcome("A.pdf", "A.pdf", 1000, 1000, 200, UploadedWithId("id-a"), 1700000000, Stamp);
    r := s.ApplyUploadOutcome("B.pdf", "B.pdf", 2000, 1000, 200, UploadedWithId("id-b"), 1700000001, Stamp);
  }

  /** A session holding one document, "A.pdf", chosen in the dropdown. */
  method OneSelectedDocument() returns (s: SessionState)
    ensures fresh(s) && s.Valid()
    ensures |s.uploadedDocuments| == 1 && s.selectedDocument == Some(DocRef("A.pdf", "id-a"))
    ensures s.chatHistory == [] && s.chatWithDoc == None
  {
    s := new SessionState();
    var r := s.ApplyUploadOutcome("A.pdf", "A.pdf", 1000, 1000, 200, UploadedWithId("id-a"), 1700000000, Stamp);
    AbsentFirstChar("A.pdf", DocPrefix);
    var found := s.ChooseFromDropdown(1);
  }

  /** Selecting "A.pdf" and asking restricts the request to it and records it as the scope. */
  method SelectThenAsk() returns (params: map<string, string>, entry: Conversation)
    ensures params.Keys == {"question", "document_name", "document_filter", "document_id"}
    ensures params["document_name"] == "A.pdf" && params["document_filter"] == "A.pdf"
    ensures params["document_id"] == "id-a"
    ensures entry.documentSearched == Some("A.pdf") && entry.answer == "X" && entry.sources == []
    ensures !entry.error
  {
    var s := TwoDocuments();
    AbsentFirstChar("A.pdf", DocPrefix);
    var found;
    found, params := s.AskQuestion(1, "What is this about?", QueryReply(200, QueryBody(Some("X"), Some([]))), Stamp);
    entry := s.chatHistory[0];
  }

  /** With no documents, only the question is sent and the entry records "All Documents". */
  method AskWithoutDocuments() returns (params: map<string, string>, entry: Conversation)
    ensures params == map["question" := "What is this about?"]
    ensures entry.documentSearched == Some(AllDocuments) && entry.answer == Query.NoAnswer
  {
    var s := new SessionState();
    var found;
    found, params := s.AskQuestion(0, "What is this about?", QueryReply(200, QueryBody(None, None)), Stamp);
    entry := s.chatHistory[0];
  }

  /** A failed query still leaves one entry, marked as an error, without sources or scope. */
  method AskWhileServerFails() returns (entries: seq<Conversation>)
    ensures |entries| == 2
    ensures entries[0].error && entries[0].answer == "Error: API returned 500"
    ensures entries[0].documentSearched == None && entries[0].sources == []
    ensures entries[1].error && entries[1].answer == "Error: timed out"
    ensures entries[1].documentSearched == None && entries[1].sources == []
  {
    var s := new SessionState();
    var found, params := s.AskQuestion(0, "q1", QueryReply(500, QueryBody(Some("ignored"), None)), Stamp);
    found, params := s.AskQuestion(0, "q2", QueryRaised("timed out"), Stamp);
    entries := s.chatHistory;
  }

  /**
   * With "A.pdf" chosen in the dropdown, "Chat with this" on "B.pdf" and then
   * a question: the question's run re-selects "A.pdf", so the request names
   * "B.pdf" with the id of "A.pdf" while the entry records "A.pdf".
   */
  method FocusThenSelectOther() returns (params: map<string, string>, entry: Conversation)
    ensures params.Keys == {"question", "document_name", "document_filter", "document_id"}
    ensures params["document_name"] == "B.pdf" && params["document_filter"] == "B.pdf"
    ensures params["document_id"] == "id-a"
    ensures entry.documentSearched == Some("A.pdf")
  {
    var s := TwoDocuments();
    assert Views.Filter(s.uploadedDocuments, "") == s.uploadedDocuments;
    s.ChatWithDocument("", 1);
    AbsentFirstChar("A.pdf", DocPrefix);
    var found;
    found, params := s.AskQuestion(1, "Summarize", QueryReply(200, QueryBody(Some("Y"), None)), Stamp);
    entry := s.chatHistory[0];
  }

  /**
   * "Chat with this" on "B.pdf" with the dropdown on "Search All Documents":
   * the request and the entry both name "B.pdf", with its id.
   */
  method FocusThenAsk() returns (params: map<string, string>, entry: Conversation)
    ensures params.Keys == {"question", "document_name", "document_filter", "document_id"}
    ensures params["document_name"] == "B.pdf" && params["document_filter"] == "B.pdf"
    ensures params["document_id"] == "id-b"
    ensures entry.documentSearched == Some("B.pdf")
  {
    var s := TwoDocuments();
    assert Views.Filter(s.uploadedDocuments, "") == s.uploadedDocuments;
    s.ChatWithDocument("", 1);
    var found;
    found, params := s.AskQuestion(0, "Summarize", QueryReply(200, QueryBody(Some("Y"), None)), Stamp);
    entry := s.chatHistory[0];
  }

  /**
   * Selecting the only document, removing it and asking: the question's run
   * finds the registry empty and clears the selection, so only the question
   * is sent.
   */
  method RemoveSelectedThenAsk() returns (params: map<string, string>, entry: Conversation)
    ensures params == map["question" := "q"]
    ensures entry.documentSearched == Some(AllDocuments)
  {
    var s := OneSelectedDocument();
    assert Views.Filter(s.uploadedDocuments, "") == s.uploadedDocuments;
    var shown := s.RemoveDocument("", 0);
    assert s.uploadedDocuments == [];
    var found;
    found, params := s.AskQuestion(0, "q", QueryReply(200, QueryBody(None, None)), Stamp);
    entry := s.chatHistory[0];
  }

  /**
   * Selecting the only document, removing it, uploading another and asking:
   * the removal's rerun cleared the selection, so only the question is sent,
   * although the registry is no longer empty.
   */
  method RemoveUploadThenAsk() returns (params: map<string, string>, entry: Conversation)
    ensures params == map["question" := "q"]
    ensures entry.documentSearched == Some(AllDocuments)
  {
    var s := OneSelectedDocument();
    assert Views.Filter(s.uploadedDocuments, "") == s.uploadedDocuments;
    var shown := s.RemoveDocument("", 0);
    assert s.selectedDocument == None;
    var r := s.ApplyUploadOutcome("C.pdf", "C.pdf", 3000, 1000, 200, UploadedWithId("id-c"), 1700000002, Stamp);
    assert |s.uploadedDocuments| == 1 && s.selectedDocument == None;
    var found;
    found, params := s.AskQuestion(0, "q", QueryReply(200, QueryBody(None, None)), Stamp);
    entry := s.chatHistory[0];
  }

  /** A timed-out upload adds nothing to the registry. */
  method UploadTimesOut() returns (count: nat, report: Upload.UploadReport)
    ensures count == 2 && report == Upload.TimedOut
  {
    var s := TwoDocuments();
    report := s.ApplyUploadOutcome("C.pdf", "C", 5000, 1000, 200, UploadTimeout, 1700000002, Stamp);
    count := |s.uploadedDocuments|;
  }

  /** Rating one answer good and then bad leaves one rating, the bad one. */
  method RateTwice() returns (fb: map<nat, FeedbackEntry>)
    ensures |fb| == 1 && 0 in fb && fb[0].kind == Bad
  {
    var s := new SessionState();
    var found, params := s.AskQuestion(0, "q", QueryReply(200, QueryBody(Some("a"), None)), Stamp);
    s.SetFeedback(0, Good, Stamp);
    s.SetFeedback(0, Bad, Stamp);
    fb := s.feedback;
  }

  /** Clearing the chat keeps both documents. */
  method ClearKeepsDocuments() returns (history: seq<Conversation>, documents: nat)
    ensures history == [] && documents == 2
  {
    var s := TwoDocuments();
    var found, params := s.AskQuestion(0, "q", QueryRaised("offline"), Stamp);
    s.SetFeedback(0, Good, Stamp);
    s.ClearHistory();
    history, documents := s.chatHistory, |s.uploadedDocuments|;
  }

  /**
   * Filtering on "b" shows only "B.pdf" at position 0, but removing it pops
   * position 0 of the registry: "A.pdf" goes and "B.pdf" stays.
   */
  method RemoveFromFilteredView() returns (shownName: string, remaining: seq<string>)
    ensures shownName == "B.pdf"
    ensures remaining == ["B.pdf"]
  {
    var s := TwoDocuments();
    var docs := s.uploadedDocuments;
    assert Lower("b") == "b";
    assert Lower("A.pdf") == "a.pdf";
    assert Lower("B.pdf") == "b.pdf";
    AbsentFirstChar("a.pdf", "b");
    assert ContainsSub("b.pdf", "b");
    assert Views.MatchingDocuments(docs[1..], "b") == [docs[1]];
    assert Views.Filter(docs, "b") == [docs[1]];
    shownName := s.RemoveDocument("b", 0);
    remaining := [s.uploadedDocuments[0].name];
  }
}
