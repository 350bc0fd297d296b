/**
 * The query workflow (app.py:319-405): the request parameters built from the
 * dropdown selection and the document focus, and the one `chat_history` entry
 * each outcome of the remote call produces.
 */
module Query {
  import opened Wrappers
  import opened Text
  import opened Records

  /** The answer recorded when a successful reply has no `answer` key. */
  const NoAnswer: string := "No answer provided"

  /** The text an error entry's answer starts with when the server replied with a status other than 200. */
  const StatusErrorPrefix: string := "Error: API returned "

  /**
   * The document name the request restricts the search to. The focus, when
   * set, overwrites what the selection put in the parameters.
   */
  function RequestedScope(selected: Option<DocRef>, focus: Option<string>): Option<string> {
    if Truthy(focus) then focus
    else if selected.Some? then Some(selected.value.name)
    else None
  }

  /** `params` is the query-parameter map sent for `question` in the given selection and focus. */
  predicate IsRequestFor(params: map<string, string>, question: string, selected: Option<DocRef>, focus: Option<string>) {
    var scope := RequestedScope(selected, focus);
    && params.Keys <= {"question", "document_name", "document_filter", "document_id"}
    && "question" in params && params["question"] == question
    && ("document_name" in params <==> scope.Some?)
    && ("document_filter" in params <==> scope.Some?)
    && (scope.Some? ==> params["document_name"] == scope.value && params["document_filter"] == scope.value)
    && ("document_id" in params <==> selected.Some? && selected.value.id != "")
    && ("document_id" in params ==> params["document_id"] == selected.value.id)
  }

  /**
   * Builds the parameters key by key: the question; the selection's name under
   * both name keys and its id when the id is non-empty; then the focus
   * overwriting both name keys.
   */
  method BuildRequestParams(question: string, selected: Option<DocRef>, focus: Option<string>)
    returns (params: map<string, string>)
    ensures IsRequestFor(params, question, selected, focus)
    ensures selected.None? && !Truthy(focus) ==> params == map["question" := question]
    ensures Truthy(focus) ==> params["document_name"] == focus.value
  {
    params := map["question" := question];
    if selected.Some? {
      var docName := selected.value.name;
      params := params["document_name" := docName];
      params := params["document_filter" := docName];
      if selected.value.id != "" {
        params := params["document_id" := selected.value.id];
      }
    }
    if Truthy(focus) {
      params := params["document_filter" := focus.value];
      params := params["document_name" := focus.value];
    }
  }

  /**
   * The scope written into a successful entry's `document_searched`: the
   * selection is consulted before the focus, and an empty result becomes
   * "All Documents".
   */
  function RecordedScope(selected: Option<DocRef>, focus: Option<string>): (r: string)
    ensures r != ""
    ensures selected.Some? && selected.value.name != "" ==> r == selected.value.name
    ensures selected.Some? && selected.value.name == "" ==> r == AllDocuments
    ensures selected.None? && Truthy(focus) ==> r == focus.value
    ensures selected.None? && !Truthy(focus) ==> r == AllDocuments
  {
    var searched := if selected.Some? then selected.value.name else if Truthy(focus) then focus.value else "";
    if searched != "" then searched else AllDocuments
  }

  /**
   * When both a selection and a focus are set and name different documents,
   * the request searches the focused one while the entry records the selected
   * one; otherwise the two agree. Names are non-empty here, as every upload
   * gives a document a non-empty name unless its file name is empty.
   */
  lemma RequestAndRecordAgree(selected: Option<DocRef>, focus: Option<string>)
    requires selected.Some? ==> selected.value.name != ""
    ensures RequestedScope(selected, focus).GetOr(AllDocuments) == RecordedScope(selected, focus)
        <==> !(selected.Some? && Truthy(focus)) || selected.value.name == focus.value
  {
  }

  /** The `chat_history` entry one question produces, for each outcome of the call. */
  function RecordFor(
    question: string, params: map<string, string>, selected: Option<DocRef>, focus: Option<string>,
    outcome: QueryOutcome, stamp: string): (r: Conversation)
    ensures r.question == question && r.timestamp == stamp
    ensures r.error <==> !(outcome.QueryReply? && outcome.status == 200)
    ensures r.error ==> r.sources == [] && r.documentSearched == None && r.queryParams == None
    ensures r.error ==> "Error: " <= r.answer
    ensures outcome.QueryRaised? ==> r.answer == "Error: " + outcome.message
    ensures !r.error ==> r.documentSearched == Some(RecordedScope(selected, focus)) && r.queryParams == Some(params)
    ensures !r.error ==> r.answer == outcome.body.answer.GetOr(NoAnswer) && r.sources == outcome.body.sources.GetOr([])
  {
    match outcome
    case QueryReply(status, body) =>
      if status == 200 then
        Conversation(question, body.answer.GetOr(NoAnswer), body.sources.GetOr([]), stamp, false,
                     Some(RecordedScope(selected, focus)), Some(params))
      else
        Conversation(question, StatusErrorPrefix + IntToString(status), [], stamp, true, None, None)
    case QueryRaised(message) =>
      Conversation(question, "Error: " + message, [], stamp, true, None, None)
  }

  /** A rejected query's entry names the status code, which can be read back from its answer. */
  lemma ErrorEntryNamesStatus(
    question: string, params: map<string, string>, selected: Option<DocRef>, focus: Option<string>,
    status: int, body: QueryBody, stamp: string)
    requires status != 200
    ensures var r := RecordFor(question, params, selected, focus, QueryReply(status, body), stamp);
      StatusErrorPrefix <= r.answer && ParseInt(r.answer[|StatusErrorPrefix|..]) == Some(status)
  {
    var r := RecordFor(question, params, selected, focus, QueryReply(status, body), stamp);
    assert r.answer[|StatusErrorPrefix|..] == IntToString(status);
    IntToStringRoundTrip(status);
  }
}
