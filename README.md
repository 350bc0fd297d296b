# RAG Document Assistant: session state model

This project models the session state of the RAG Document Assistant client (`app.py`). That client is a Streamlit page. Users upload PDFs to a remote retrieval-augmented-generation service, pick a document or "all documents" as the scope, ask questions, and rate the answers. Take away the widgets and what remains is one record of session state and the user actions that change it. The record holds:

- `chat_history`: the conversation log, one entry per question asked.
- `uploaded_documents`: the document registry.
- `feedback`: ratings keyed by conversation index.
- `selected_document`: the dropdown selection.
- `chat_with_doc` and `switch_to_chat`: the focus set by "Chat with this".
- `auto_fill_question` and `pending_question`: the staged example question.

Each remote call is given as its outcome, and each clock reading is passed in as a value.

Modules:

- `Records` (records.dfy): the entities — conversation entries, documents, selection records, ratings, and the outcomes of the query and upload calls.
- `Query` (query.dfy): how a question's request parameters are built, and the history entry each outcome produces.
- `Upload` (upload.dfy): the upload endpoint, the document id (taken from the reply or made up), and the registry record.
- `Views` (views.dfy): the derived views — the registry search filter, chunk totals, the chat and document-list exports, source excerpts, and the feedback summary.
- `Usage` (usage.dfy): the per-scope query counts. A loop fills a dictionary, and a stable sort lists it by count.
- `Session` (session.dfy): the class `SessionState`, with one method per user action. `AskQuestion` is the run of the script in which a question is entered: the dropdown block, then the question.
- `Scenarios` (scenarios.dfy): short sessions driven through the class.
- `Text`, `Wrappers`: the Python string operations used (`str(int)`, `lower`, `in`, `replace`, `rstrip`, slicing) and `Option`.

Quirks of `app.py` that the model keeps:

- For a query, the focus overwrites the selection in the request parameters. The history entry, however, records the selection first (`Query.RequestAndRecordAgree`, `Scenarios.FocusThenSelectOther`).
- Error entries carry no scope and no parameters. They count as "All Documents" in the usage listing.
- "Search All Documents" keeps a stale selection. The selection is cleared only when the registry is empty or the chosen name is not found. "Clear document focus" also keeps the selection that "Chat with this" made.
- "Remove" pops position `i` of the whole registry, while `i` is a position in the filtered view (`Scenarios.RemoveFromFilteredView`).
- The dropdown reads a name back by deleting every copy of its label. It then selects the first document with that name. A document whose name contains the label cannot be selected. Of two documents with the same name, the first one's id is always used.

- A whitespace-only question is sent: `app.py` only tests `if question:` (app.py:319).
- An empty registry clears the selection but not the focus (app.py:274-276).
- The satisfaction rate divides by the number of ratings (app.py:743-745). Every rating is good or bad, so that is good plus bad (`Views.FeedbackCountsPartition`).
- The dropdown block (app.py:237-276) runs in every run of the script. It comes after the sidebar (app.py:116-204) and the focus and suggestion handlers (app.py:212-232), and before a question is handled at app.py:319. The selection that "Chat with this" sets therefore survives into a question only while the dropdown is on "Search All Documents" (`Session.SessionState.AskQuestion`, `Scenarios.FocusThenAsk`, `Scenarios.FocusThenSelectOther`).

## Model

| member | source | states |
|---|---|---|
| Session.SessionState.constructor | app.py:23-43 | a session starts with an empty history, registry and rating map, no staged question, no focus and no selection |
| Session.SessionState.AskQuestion | app.py:237-405 | a question's run first applies the dropdown for the current choice (`DropdownApplied`), then sends parameters satisfying `IsRequestFor` for the selection it leaves and appends exactly the `RecordFor` entry for it; with the dropdown on "Search All Documents" and a selection and focus naming the same document, the requested and the recorded scope agree |
| Session.SessionState.RatingsWithinHistory | app.py:104-107 | in a valid session there are at most as many ratings as conversations |
| Views.RatingsBelow | app.py:743-745 | ratings keyed by conversations below n number at most n, which bounds the satisfaction denominator |
| Session.SessionState.SubmitQuestion | app.py:319-405 | every question appends exactly one entry, built by `RecordFor` from the selection and focus in effect, and earlier entries are kept; the parameters sent satisfy `IsRequestFor`; registry, ratings, selection, focus and prompts are unchanged |
| Query.BuildRequestParams | app.py:326-346 | `question` is always sent; the selection puts its name under `document_name` and `document_filter` and its id under `document_id` only when non-empty; a focus overwrites both name keys; with neither, only `question` is sent |
| Query.RecordedScope | app.py:360-378 | the recorded scope is never empty; a selection with a name wins, then a focus, else "All Documents"; a selection with an empty name gives "All Documents" without consulting the focus |
| Query.RequestAndRecordAgree | app.py:330-365 | the scope the request names and the scope the entry records differ exactly when a selection and a focus naming different documents are both set |
| Query.RecordFor | app.py:352-405 | an entry is an error exactly when the reply is not a 200; error entries have no sources, scope or parameters and an answer starting "Error: ", which for an exception is "Error: " followed by its message; a 200 entry records the reply's answer (default "No answer provided"), its sources (default none), the resolved scope and the parameters |
| Query.ErrorEntryNamesStatus | app.py:388-394 | a non-200 entry's answer is "Error: API returned " followed by the status code, which reads back as that code |
| Session.SessionState.ApplyUploadOutcome | app.py:502-561 | a 200 reply appends exactly one document, the one `NewDocument` builds, and raises the chunk total by its chunks; any other status, a timeout or an exception leaves the registry as it was and is reported as such; history, ratings, selection, focus and prompts are unchanged |
| Upload.NewDocument | app.py:513-524 | the name is the entered name when non-empty, else the file name; chunks default to 0; the id is the resolved one and never empty; the reply is kept |
| Upload.ResolveDocumentId | app.py:505-510 | the id is the first non-empty one of `document_id`, `id`, `file_id`, else a made-up id that reads back as the epoch and the first 20 characters of the file name; never empty |
| Upload.SynthesizedIdRoundTrip | app.py:509-510 | a made-up id "doc_<epoch>_<name[:20]>" splits back into that epoch and that name prefix |
| Upload.UploadEndpoint | app.py:97-100 | the endpoint ends in "/upload" and starts with the configured URL cut before its trailing slashes |
| Upload.EndpointIgnoresTrailingSlash | app.py:99-100 | a trailing slash on the configured URL gives the same endpoint |
| Upload.DefaultDisplayNameDropsExtension | app.py:467 | the name field's default for "stem.pdf" is the stem when the stem has no dot |
| Session.SessionState.SetFeedback | app.py:102-107 | afterwards the conversation has exactly one rating, the new one; every other rating is kept; the count grows only for a newly rated conversation; the good count moves accordingly |
| Views.GoodCountAfterRating | app.py:104-107 | re-rating a conversation removes its old rating from the good count and adds the new one |
| Session.SessionState.ClearHistory | app.py:141-143 | history and ratings are emptied together; registry, selection, focus and prompts are unchanged |
| Session.SessionState.ChatWithDocument | app.py:600-606 | the focus is switched on and names the document shown at that position of the filtered view, a registry document; the selection names it with its id, so request and record agree as long as the dropdown stays on "Search All Documents" |
| Session.SessionState.ClearFocus | app.py:214-216 | the focus is dropped; the selection is kept |
| Session.SessionState.RemoveDocument | app.py:610-614 | the entry at that position of the whole registry is removed, the chunk total drops by its chunks, the confirmation names the entry at that position of the filtered view, the selection is cleared when the registry is left empty (the rerun reaches app.py:276) and kept otherwise, and the focus is kept |
| Scenarios.RemoveUploadThenAsk | app.py:274-378 | after the only, selected, document is removed and another uploaded, a question sends only the question and records "All Documents" |
| Session.SessionState.ChooseFromDropdown | app.py:237-276 | an empty registry clears the selection; "Search All Documents" keeps the old one; a document option selects the first document with the name read back from the option, with its id, or clears the selection; for a name without the label that is a document at or before the chosen one |
| Session.FindByName | app.py:257-261 | the result is the first position holding the name, or none when no document has it |
| Session.DropdownNameIsName | app.py:239-255 | a name that does not contain the label reads back unchanged from its option |
| Session.SessionState.StageExample | app.py:784 | an example question becomes the staged question |
| Session.SessionState.AcceptSuggestion | app.py:225-227 | the staged question becomes the pending question and the staged one is dropped |
| Session.SessionState.DismissSuggestion | app.py:230-231 | the staged question is dropped |
| Views.FilterExact | app.py:573-575 | the filtered view keeps registry order and holds exactly the documents whose lower-cased name contains the lower-cased term, each as often as the registry does; an empty term gives the whole registry |
| Views.MatchingDocumentsExact | app.py:575 | the comprehension keeps registry order and exactly the matching documents, with their multiplicities |
| Views.EmptyTermMatchesAll | app.py:573-575 | the empty-term shortcut returns what the comprehension would |
| Views.TotalChunksAppend | app.py:664 | the chunk total of two lists is the sum of their totals |
| Views.TotalChunksRemove | app.py:612 | removing a document lowers the chunk total by its chunks |
| Views.ExportChat | app.py:149-160 | the chat export exists exactly when the history is non-empty; it holds the history and ratings, counts the conversations, and counts twice as many messages |
| Views.ExportDocuments | app.py:622-627 | the document-list export exists exactly when the registry is non-empty and carries the registry and its chunk total |
| Views.Excerpt | app.py:299-302 | a source is shown whole up to 300 characters; a longer one shows its first 300 followed by "..." |
| Views.FeedbackCountsPartition | app.py:733-735 | good and bad counts add up to the number of ratings |
| Views.SatisfactionRate | app.py:743-747 | "N/A" exactly when there are no ratings; otherwise 100 times the good count over the number of ratings, at most 100 percent |
| Views.SatisfactionTwoGoodOneBad | app.py:733-745 | ratings good, good, bad give 200/3 |
| Usage.DocumentUsage | app.py:682-688 | the listing is sorted by non-increasing count and lists each scope once. Every listed count is the number of entries with that scope, and the counts add up to the length of the history. Every entry's scope is listed, and entries without a scope count as "All Documents" |
| Usage.TallyStep | app.py:683-685 | one turn of the counting loop adds one to its scope's count, or lists a new scope with count one, and keeps the total equal to the entries read |
| Usage.SortByCountFacts | app.py:688 | the sort returns a rearrangement of its input, ordered by non-increasing count, with the same total and still one entry per scope |
| Text.IntToStringRoundTrip | app.py:390 | the decimal text of an integer reads back as that integer |
| Text.RStrip | app.py:99 | `rstrip('/')` keeps a prefix that does not end in '/' and drops only slashes |
| Text.RemoveAllAbsent | app.py:255 | `replace(pat, "")` leaves a string without `pat` unchanged |
| Scenarios.SelectThenAsk | app.py:330-380 | with "A.pdf" and "B.pdf" uploaded and "A.pdf" selected, the request carries "A.pdf" under both name keys and its id, and a reply with answer "X" and no sources records scope "A.pdf" |
| Scenarios.AskWithoutDocuments | app.py:274-380 | with no documents only the question is sent and the entry records "All Documents" and the default answer |
| Scenarios.AskWhileServerFails | app.py:382-405 | a 500 reply and an exception each leave one error entry, without scope or sources, whose answer names the status or the message |
| Scenarios.FocusThenSelectOther | app.py:237-365 | with "A.pdf" chosen in the dropdown, focusing on "B.pdf" and asking sends "B.pdf" with A's id and records "A.pdf" |
| Scenarios.FocusThenAsk | app.py:237-365 | with the dropdown on "Search All Documents", focusing on "B.pdf" and asking sends "B.pdf" with B's id and records "B.pdf" |
| Scenarios.RemoveSelectedThenAsk | app.py:274-378 | after the only, selected, document is removed, a question sends only the question and records "All Documents" |
| Scenarios.UploadTimesOut | app.py:553-556 | a timed-out upload leaves the two-document registry at two documents |
| Scenarios.RateTwice | app.py:102-107 | rating an answer good then bad leaves one rating, bad |
| Scenarios.ClearKeepsDocuments | app.py:141-143 | clearing the chat empties the history and keeps both documents |
| Scenarios.RemoveFromFilteredView | app.py:573-614 | with filter "b" the view shows "B.pdf" at position 0, but removing it takes away "A.pdf" |

## Left out

- HTTP is not modelled: the health and status checks, the document-count probe, the "Test All Endpoints" button, and the query and upload POSTs themselves (app.py:57-95, 350, 497, 809-825). They are network I/O; only their outcomes enter the model.
- The Streamlit rendering is not modelled: widgets, toasts, spinners, the progress bar, `st.rerun`, `time.sleep`, the recent-activity lists (app.py:696-726) and the debug panel. They are presentation. A button press is a method call. The dropdown block runs in every run, before the question at app.py:319, and `st.rerun` repeats it. The model applies the whole block in `AskQuestion`, because the question is the only action that reads the selection. Its empty-registry clear (app.py:276) is kept at all times: `SessionState.Valid` requires it, and `RemoveDocument` performs it when the pop empties the registry.
- Secrets and `.env` loading (app.py:8-19) are configuration I/O. The API URL is a parameter of `Upload.UploadEndpoint`.
- Clock readings (`time.strftime`, `time.time`) are parameters.
- The JSON text of the two exports (app.py:163, 631) is not modelled, only the export records. So a round trip through JSON text is not stated.
- Floating point is not modelled. `size_mb` is kept as the byte count it is computed from. The satisfaction figure is kept as a numerator and denominator, without the `:.0f` rounding. The average answer length in words (app.py:668-673) needs both `str.split` and float division, so it is left out.
- The example-question catalogue (app.py:754-770) is static data. `StageExample` takes any question.
- Text.Lower: lower-cases ASCII letters only. Python's `str.lower` also maps other Unicode letters, so the filter is modelled for ASCII names.
- Reply fields are modelled as strings or integers, either present or absent. A JSON `null`, a number where an id string is expected, or a body that is not a dictionary is folded into the "exception" outcome or into an absent field.
- Session.SessionState.RemoveDocument: models the pop as one action. In Streamlit, the confirmation checkbox appears only on the rerun the button starts, so the button and the checkbox may never both be true in one run. That rerun behaviour is not modelled.
- Usage.DocumentUsage: the page shows the usage listing only while the registry is non-empty (app.py:678). The model computes it for any history; that display gate is rendering.
- Views.SatisfactionRate: the feedback summary is shown only when there is at least one rating (app.py:729), so the page never displays the "N/A" branch (app.py:746-747) that the function keeps.
- Usage.DocumentUsage: does not state that scopes with equal counts keep first-use order. `SortByCount` inserts stably, as Python's `sorted` does, but that order is not proved.
- Whether a question is empty is checked before the question is handled (app.py:319). The model states it as a precondition of `AskQuestion` and `SubmitQuestion`.
- `pending_question` is written (app.py:226) but never read anywhere in app.py, so no operation consumes it.
