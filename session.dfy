/**
 * The session state of one browser session (app.py:23-43) and the user
 * actions that change it. Each action is a method of `SessionState`; the
 * outcome of a remote call and the clock reading are passed in.
 */
module Session {
  import opened Wrappers
  import opened Text
  import opened Records
  import Query
  import Upload
  import Views

  /** The label in front of each document's name in the dropdown (app.py:239). */
  const DocPrefix: string := "\U{1F4C4} "

  /** The name the dropdown code reads back from a document's option: every copy of the label is removed (app.py:255). */
  function DropdownName(d: Document): string {
    RemoveAll(DocPrefix + d.name, DocPrefix)
  }

  /** When a name does not itself contain the label, the dropdown reads back exactly that name. */
  lemma DropdownNameIsName(d: Document)
    requires !ContainsSub(d.name, DocPrefix)
    ensures DropdownName(d) == d.name
  {
    RemoveAllLeading(DocPrefix, d.name);
    RemoveAllAbsent(d.name, DocPrefix);
  }

  /** `found` is the position of the first document called `name`, or `None` when no document is. */
  predicate IsFirstNamed(docs: seq<Document>, name: string, found: Option<nat>) {
    match found
    case None => forall j | 0 <= j < |docs| :: docs[j].name != name
    case Some(p) => p < |docs| && docs[p].name == name && forall j | 0 <= j < p :: docs[j].name != name
  }

  /** The lookup loop that stops at the first document with the chosen name (app.py:257-261). */
  method FindByName(docs: seq<Document>, name: string) returns (found: Option<nat>)
    ensures IsFirstNamed(docs, name, found)
  {
    var j := 0;
    while j < |docs|
      invariant j <= |docs|
      invariant forall l | 0 <= l < j :: docs[l].name != name
    {
      if docs[j].name == name {
        return Some(j);
      }
      j := j + 1;
    }
    return None;
  }

  class SessionState {
    var chatHistory: seq<Conversation>
    var uploadedDocuments: seq<Document>
    var feedback: map<nat, FeedbackEntry>
    var autoFillQuestion: Option<string>
    var pendingQuestion: Option<string>
    var switchToChat: bool
    var chatWithDoc: Option<string>
    var selectedDocument: Option<DocRef>

    /**
     * Every rating belongs to a conversation of the history, and with no
     * documents there is no selection: each run with an empty registry
     * clears it (app.py:274-276).
     */
    ghost predicate Valid()
      reads this
    {
      && (forall k | k in feedback :: k < |chatHistory|)
      && (uploadedDocuments == [] ==> selectedDocument == None)
    }

    twostate predicate HistoryUnchanged()
      reads this
    {
      chatHistory == old(chatHistory) && feedback == old(feedback)
    }

    twostate predicate RegistryUnchanged()
      reads this
    {
      uploadedDocuments == old(uploadedDocuments)
    }

    twostate predicate ScopeUnchanged()
      reads this
    {
      selectedDocument == old(selectedDocument) && chatWithDoc == old(chatWithDoc) && switchToChat == old(switchToChat)
    }

    twostate predicate PromptsUnchanged()
      reads this
    {
      autoFillQuestion == old(autoFillQuestion) && pendingQuestion == old(pendingQuestion)
    }

    /** Every rating belongs to a conversation, so there are at most as many ratings as conversations. */
    lemma RatingsWithinHistory()
      requires Valid()
      ensures |feedback| <= |chatHistory|
    {
      Views.RatingsBelow(feedback, |chatHistory|);
    }

    /**
     * What the dropdown block (app.py:237-276) leaves behind for `choice`, 0
     * being "Search All Documents" and `k` the k-th document: with no
     * documents the selection is cleared; "Search All Documents" keeps
     * whatever selection there was; a document option selects the first
     * document carrying the name read back from the option (`found`), or
     * clears the selection when there is none. For a name without the label,
     * that is a document named as the chosen one, at or before it.
     */
    twostate predicate DropdownApplied(choice: nat, new found: Option<nat>)
      reads this
    {
      && (uploadedDocuments == [] ==> selectedDocument == None && found == None)
      && (uploadedDocuments != [] && choice == 0 ==> selectedDocument == old(selectedDocument) && found == None)
      && (uploadedDocuments != [] && 0 < choice <= |uploadedDocuments| ==>
            var name := DropdownName(uploadedDocuments[choice - 1]);
            && IsFirstNamed(uploadedDocuments, name, found)
            && selectedDocument == (if found.Some? then Some(DocRef(name, uploadedDocuments[found.value].documentId)) else None))
      && (0 < choice <= |uploadedDocuments| && !ContainsSub(uploadedDocuments[choice - 1].name, DocPrefix) ==>
            && found.Some? && found.value <= choice - 1
            && selectedDocument == Some(DocRef(uploadedDocuments[choice - 1].name, uploadedDocuments[found.value].documentId)))
    }

    /** A new session: no conversations, documents, ratings, prompts, focus or selection. */
    constructor ()
      ensures Valid()
      ensures chatHistory == [] && uploadedDocuments == [] && feedback == map[]
      ensures autoFillQuestion == None && pendingQuestion == None
      ensures !switchToChat && chatWithDoc == None && selectedDocument == None
    {
      chatHistory := [];
      uploadedDocuments := [];
      feedback := map[];
      autoFillQuestion := None;
      pendingQuestion := None;
      switchToChat := false;
      chatWithDoc := None;
      selectedDocument := None;
    }

    /**
     * One run of the script in which a question is entered. Every run
     * executes the dropdown block (app.py:237-276) before the question is
     * handled (app.py:319-405), so the selection the question sees is the one
     * the dropdown's current `choice` leaves behind. While the dropdown is on
     * "Search All Documents", a selection and focus naming the same document
     * keep request and record in agreement.
     */
    method AskQuestion(choice: nat, question: string, outcome: QueryOutcome, stamp: string)
      returns (found: Option<nat>, params: map<string, string>)
      requires Valid() && question != "" && choice <= |uploadedDocuments|
      modifies this
      ensures Valid()
      ensures DropdownApplied(choice, found)
      ensures Query.IsRequestFor(params, question, selectedDocument, chatWithDoc)
      ensures chatHistory ==
        old(chatHistory) + [Query.RecordFor(question, params, selectedDocument, chatWithDoc, outcome, stamp)]
      ensures feedback == old(feedback)
      ensures chatWithDoc == old(chatWithDoc) && switchToChat == old(switchToChat)
      ensures RegistryUnchanged() && PromptsUnchanged()
      ensures (uploadedDocuments != [] && choice == 0 && old(selectedDocument).Some? && old(selectedDocument).value.name != ""
               && old(chatWithDoc) == Some(old(selectedDocument).value.name)) ==>
        Query.RequestedScope(selectedDocument, chatWithDoc) == Some(Query.RecordedScope(selectedDocument, chatWithDoc))
    {
      found := ChooseFromDropdown(choice);
      params := SubmitQuestion(question, outcome, stamp);
    }

    /**
     * Sends a question and appends exactly one entry to the history, whatever
     * the call came to (app.py:319-405). Returns the parameters sent.
     */
    method SubmitQuestion(question: string, outcome: QueryOutcome, stamp: string)
      returns (params: map<string, string>)
      requires Valid() && question != ""
      modifies this
      ensures Valid()
      ensures Query.IsRequestFor(params, question, old(selectedDocument), old(chatWithDoc))
      ensures chatHistory ==
        old(chatHistory) + [Query.RecordFor(question, params, old(selectedDocument), old(chatWithDoc), outcome, stamp)]
      ensures feedback == old(feedback)
      ensures RegistryUnchanged() && ScopeUnchanged() && PromptsUnchanged()
    {
      params := Query.BuildRequestParams(question, selectedDocument, chatWithDoc);
      var entry := Query.RecordFor(question, params, selectedDocument, chatWithDoc, outcome, stamp);
      chatHistory := chatHistory + [entry];
    }

    /**
     * Handles the reply to an upload (app.py:502-561): a 200 reply appends one
     * document; any other status, a timeout or an exception leaves the
     * registry as it was and is reported.
     */
    method ApplyUploadOutcome(
      fileName: string, processName: string, sizeBytes: nat, chunkSize: int, chunkOverlap: int,
      outcome: UploadOutcome, epoch: int, stamp: string)
      returns (report: Upload.UploadReport)
      requires Valid()
      modifies this
      ensures Valid()
      ensures outcome.UploadReply? && outcome.status == 200 ==>
        var doc := Upload.NewDocument(fileName, processName, sizeBytes, chunkSize, chunkOverlap, outcome.body, epoch, stamp);
        && uploadedDocuments == old(uploadedDocuments) + [doc]
        && report == Upload.Uploaded(doc.documentId)
        && Views.TotalChunks(uploadedDocuments) == Views.TotalChunks(old(uploadedDocuments)) + doc.chunks
      ensures !(outcome.UploadReply? && outcome.status == 200) ==> uploadedDocuments == old(uploadedDocuments)
      ensures outcome.UploadReply? && outcome.status != 200 ==> report == Upload.Rejected(outcome.status)
      ensures outcome.UploadTimeout? ==> report == Upload.TimedOut
      ensures outcome.UploadRaised? ==> report == Upload.Failed(outcome.message)
      ensures HistoryUnchanged() && ScopeUnchanged() && PromptsUnchanged()
    {
      match outcome
      case UploadReply(status, body) =>
        if status == 200 {
          var doc := Upload.NewDocument(fileName, processName, sizeBytes, chunkSize, chunkOverlap, body, epoch, stamp);
          Views.TotalChunksAppend(uploadedDocuments, [doc]);
          uploadedDocuments := uploadedDocuments + [doc];
          report := Upload.Uploaded(doc.documentId);
        } else {
          report := Upload.Rejected(status);
        }
      case UploadTimeout =>
        report := Upload.TimedOut;
      case UploadRaised(message) =>
        report := Upload.Failed(message);
    }

    /** Rates conversation `index`: its one rating is replaced, every other rating is kept (app.py:102-107). */
    method SetFeedback(index: nat, kind: FeedbackKind, stamp: string)
      requires Valid() && index < |chatHistory|
      modifies this
      ensures Valid()
      ensures feedback == old(feedback)[index := FeedbackEntry(kind, stamp)]
      ensures index in feedback && feedback[index].kind == kind
      ensures forall k | k in old(feedback) && k != index :: k in feedback && feedback[k] == old(feedback)[k]
      ensures feedback.Keys == old(feedback).Keys + {index}
      ensures |feedback| == |old(feedback)| + (if index in old(feedback) then 0 else 1)
      ensures Views.GoodCount(feedback) == Views.GoodCount(old(feedback))
        - (if index in old(feedback) && old(feedback)[index].kind == Good then 1 else 0)
        + (if kind == Good then 1 else 0)
      ensures chatHistory == old(chatHistory)
      ensures RegistryUnchanged() && ScopeUnchanged() && PromptsUnchanged()
    {
      Views.GoodCountAfterRating(feedback, index, FeedbackEntry(kind, stamp));
      feedback := feedback[index := FeedbackEntry(kind, stamp)];
    }

    /** Empties the history and the ratings together (app.py:141-143). */
    method ClearHistory()
      requires Valid()
      modifies this
      ensures Valid()
      ensures chatHistory == [] && feedback == map[]
      ensures RegistryUnchanged() && ScopeUnchanged() && PromptsUnchanged()
    {
      chatHistory := [];
      feedback := map[];
    }

    /**
     * "Chat with this" on entry `i` of the filtered view (app.py:600-607):
     * focuses on that document and selects it. The selection lasts only while
     * the dropdown is on "Search All Documents": the next run's dropdown block
     * replaces it otherwise (see `AskQuestion`).
     */
    method ChatWithDocument(term: string, i: nat)
      requires Valid() && i < |Views.Filter(uploadedDocuments, term)|
      modifies this
      ensures Valid()
      ensures var doc := Views.Filter(old(uploadedDocuments), term)[i];
        && doc in uploadedDocuments
        && switchToChat && chatWithDoc == Some(doc.name)
        && selectedDocument == Some(DocRef(doc.name, doc.documentId))
        && (doc.name != "" ==> Query.RequestedScope(selectedDocument, chatWithDoc) == Some(Query.RecordedScope(selectedDocument, chatWithDoc)))
      ensures HistoryUnchanged() && RegistryUnchanged() && PromptsUnchanged()
    {
      var doc := Views.Filter(uploadedDocuments, term)[i];
      Views.FilterExact(uploadedDocuments, term);
      assert doc in multiset(Views.Filter(uploadedDocuments, term));
      switchToChat := true;
      chatWithDoc := Some(doc.name);
      selectedDocument := Some(DocRef(doc.name, doc.documentId));
    }

    /** "Clear document focus" (app.py:214-216): drops the focus; the selection it came with stays. */
    method ClearFocus()
      requires Valid()
      modifies this
      ensures Valid()
      ensures !switchToChat && chatWithDoc == None
      ensures selectedDocument == old(selectedDocument)
      ensures HistoryUnchanged() && RegistryUnchanged() && PromptsUnchanged()
    {
      switchToChat := false;
      chatWithDoc := None;
    }

    /**
     * "Remove" on entry `i` of the filtered view (app.py:610-614): the entry
     * at position `i` of the whole registry is popped, while the confirmation
     * names the entry shown at `i`. The rerun that follows reaches the
     * dropdown block, which clears the selection once the registry is empty
     * (app.py:276); otherwise selection and focus are left as they were.
     */
    method RemoveDocument(term: string, i: nat) returns (shownName: string)
      requires Valid() && i < |Views.Filter(uploadedDocuments, term)|
      modifies this
      ensures Valid()
      ensures i < |old(uploadedDocuments)|
      ensures uploadedDocuments == old(uploadedDocuments)[..i] + old(uploadedDocuments)[i + 1..]
      ensures shownName == Views.Filter(old(uploadedDocuments), term)[i].name
      ensures Views.TotalChunks(uploadedDocuments) == Views.TotalChunks(old(uploadedDocuments)) - old(uploadedDocuments)[i].chunks
      ensures selectedDocument == (if uploadedDocuments == [] then None else old(selectedDocument))
      ensures chatWithDoc == old(chatWithDoc) && switchToChat == old(switchToChat)
      ensures HistoryUnchanged() && PromptsUnchanged()
    {
      Views.FilterExact(uploadedDocuments, term);
      shownName := Views.Filter(uploadedDocuments, term)[i].name;
      Views.TotalChunksRemove(uploadedDocuments, i);
      uploadedDocuments := uploadedDocuments[..i] + uploadedDocuments[i + 1..];
      if uploadedDocuments == [] {
        selectedDocument := None;
      }
    }

    /** The dropdown block (app.py:237-276), which runs at the start of every run of the script. */
    method ChooseFromDropdown(choice: nat) returns (found: Option<nat>)
      requires Valid() && choice <= |uploadedDocuments|
      modifies this`selectedDocument
      ensures Valid()
      ensures DropdownApplied(choice, found)
    {
      found := None;
      if uploadedDocuments == [] {
        selectedDocument := None;
      } else if choice > 0 {
        var chosen := uploadedDocuments[choice - 1];
        var name := DropdownName(chosen);
        found := FindByName(uploadedDocuments, name);
        if !ContainsSub(chosen.name, DocPrefix) {
          DropdownNameIsName(chosen);
        }
        if found.Some? {
          selectedDocument := Some(DocRef(name, uploadedDocuments[found.value].documentId));
        } else {
          selectedDocument := None;
        }
      }
    }

    /** An example question button stages its question (app.py:784). */
    method StageExample(question: string)
      modifies this`autoFillQuestion
      ensures autoFillQuestion == Some(question)
    {
      autoFillQuestion := Some(question);
    }

    /** "Use this question" (app.py:225-227): the staged question becomes the pending one. */
    method AcceptSuggestion()
      requires Truthy(autoFillQuestion)
      modifies this`autoFillQuestion, this`pendingQuestion
      ensures pendingQuestion == old(autoFillQuestion) && Truthy(pendingQuestion)
      ensures autoFillQuestion == None
    {
      pendingQuestion := autoFillQuestion;
      autoFillQuestion := None;
    }

    /** "Cancel" (app.py:230-231): the staged question is dropped. */
    method DismissSuggestion()
      requires Truthy(autoFillQuestion)
      modifies this`autoFillQuestion
      ensures autoFillQuestion == None
    {
      autoFillQuestion := None;
    }
  }
}
