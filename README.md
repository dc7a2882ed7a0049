# Document ingestion back end, modelled in Dafny

This project models the document-ingestion back end of a real-estate document assistant. The back end takes in files in many formats, such as PDF, Word, Excel, PowerPoint, CSV, RTF and OpenDocument. It turns each file into text, optionally extracts property data from that text, and keeps the text in a document index. The index is an in-memory map from document id to metadata, kept beside a vector store of text chunks.

The model covers:

- the document index and its chunk store: store, rebuild from the store, search, reading one document or all of them, the single, batch, filter, clear-all and orphan deletes, and statistics;
- the parallel batch pipeline: one worker pool per agent type, the agent-type table, round-robin assignment, task status guards, outcome collection, the overall status rule, and the result record with its per-agent counts;
- the single-file processing graph: its validate, parse, extract and store nodes, the routers between them, and `process_file`;
- the file router's extension table and dispatch, and the two upload pipelines of the file-processing API;
- the text each parser assembles from what its library hands back (PDF, PowerPoint, CSV, Excel, Word, OpenDocument Text, RTF), and the three helpers that turn a parser's result dict into one text;
- memory screening: which documents are used, how many, in which order, and how much of each;
- the chat agent's command dispatch, quick-query test, memory query, five-minute metadata cache and keyword fallback search;
- the cleaning of the property extraction agent's answer;
- the compliance service's standard-name resolution;
- the data-catalogue tooling: format detection, the URL checks, the search-query builder, resource filtering, XML-to-dict conversion, and the agent copy's file naming and JSON preparation.

Code that changes state in place is modelled as classes and methods. The document index is the class `Memory.DocumentMemory`, over a `VectorStore.ChunkStore`. The batch state is `ParallelNodes.ParallelState`, the single-file state is `FileNodes.FileState`, the chat agent's cache is `ChatAgent.DocumentCache`, and the tooling's file counter is `AgentTooling.FileCounter`. Each loop of the source is a method with invariants, proved against a function that specifies it. Pure helpers are functions, and the properties relating several operations are lemmas.

Python values that flow between components (dicts, lists, strings, None, datetimes) are the datatype `PyValues.Value`. A dict is an insertion-ordered list of entries, so key-priority lookups follow dict order. A Python exception is an error value (`Result`), or an explicit outcome field where the source catches it. Libraries, language models, embeddings, clocks and uuids are parameters of the operations that use them.

`backend/agent/tooling.py` repeats `_detect_format`, `build_search_query`, the URL checks, the resource filter and `_xml_to_dict` from `backend/tooling.py` unchanged. Those helpers are modelled once, in `Tooling`, and the rows below cite the `backend/tooling.py` copy. `AgentTooling` adds what only the agent copy has.

### Where the code and the design description differ

In each case below the model follows the code.

- A task whose parser raises or whose file has no text is still recorded as COMPLETED by the batch pipeline, with `{success: False}` as its result. It counts among the successful uploads. Only an exception that escapes a task's own handler makes it FAILED. The batch is FAILED when some tasks failed and none completed.
- The worker ids only label tasks. All tasks of a batch run together, with no limit per pool. The model runs them as a sequential loop over independent outcomes.
- `delete_document` returns False when the id has no metadata record, even if chunks with that id are stored. `clear_all_documents` reports the number of chunks, not documents, as its deleted count.
- `store_document` registers the metadata record even for empty content. That record gets zero chunks, so the document cannot be read back.
- The router's extension table has 16 entries.
- The single-file store maps Word, Excel and PowerPoint files to the TXT document type. The batch pipeline gives them their own types.
- The upload endpoint can parse only PDF and PowerPoint bytes. Every other supported type raises AttributeError, which the endpoint answers with status 500.
- The single-file graph parses through the same bytes entry point, so a Word, Excel, CSV, text, RTF or ODT file always ends FAILED in its parse node.
- `validate_resource_url` reports a malformed URL as `url_format_error`, while `fetch_resource_data` uses `url_validation_error`.
- The chat agent's `@stats` handler refers to an undefined name, so it always answers with its error response.
- A tenant grade is lower-cased before it is compared with the upper-case grade table, so "unrated" is the only grade that survives cleaning.

## Model

| member | source | states |
|---|---|---|
| PyValues.Get | backend/app/core/langgraph/nodes/file_processing_nodes.py:216-222 | d.get(key): None exactly when the key is absent, otherwise a value stored under it |
| PyValues.Put | backend/app/core/langgraph/nodes/parallel_processing_nodes.py:490-494 | d[key] = value: the key then reads the value, every other key reads as before, and the dict grows only for a new key |
| PyValues.Keys | backend/app/core/langgraph/nodes/parallel_processing_nodes.py:465 | the keys of a dict, in order |
| PyValues.PlainRepr | backend/tooling.py:737 | repr of a string without quotes, backslashes or control characters, as int()'s error text shows it, is the string between single quotes |
| PyValues.ApostropheRepr | backend/tooling.py:737 | repr switches to double quotes for a string holding a single quote and no double quote |
| PyValues.JoinValues | backend/app/core/langgraph/nodes/parallel_processing_nodes.py:446 | str.join succeeds exactly when every part is a string |
| ParsedText.RowTexts | backend/app/core/langgraph/nodes/file_processing_nodes.py:244-248 | one text per spreadsheet row, tab-joined cells for a list row and str(row) otherwise |
| ParsedText.StringValues | backend/app/core/langgraph/nodes/file_processing_nodes.py:276-278 | the string values of a dict, never more than its entries |
| ParsedText.WorkflowAgreesWithBatch | backend/app/core/langgraph/nodes/file_processing_nodes.py:212-280 | on results without extracted_text or worksheets the single-file helper agrees with the batch helper |
| ParsedText.WorkflowPrefersExtractedText | backend/app/core/langgraph/nodes/file_processing_nodes.py:216-218 | a result with extracted_text is read from that key by the single-file helper, while the batch helper reads text |
| ParsedText.FallbackAllStrings | backend/app/core/langgraph/nodes/file_processing_nodes.py:266-270 | a dict of strings falls back to those strings in key order |
| ParsedText.FallbackIgnoresNested | backend/app/core/langgraph/nodes/file_processing_nodes.py:266-280 | top-level dicts contribute nothing to the fallback text |
| ParsedText.TextContentWins | backend/app/core/langgraph/nodes/file_processing_nodes.py:237-241 | worksheets with text_content contribute exactly those texts, whatever data they hold |
| ParsedText.StringSlidesKept | backend/app/core/langgraph/nodes/file_processing_nodes.py:227-231 | string slides are taken as they are |
| ParsedText.NonDictSlide | backend/app/api/v1/file_processing.py:267-268 | a slide that is not a dict raises TypeError exactly when `in` fails on it (not a str, list or tuple) or holds "slide_text" so that the subscript fails; otherwise it adds nothing |
| ParsedText.IntSlideRaises | backend/app/api/v1/file_processing.py:266-268 | an int slide makes the helper raise "argument of type 'int' is not iterable" instead of giving a text |
| ParsedText.SlideTextPartsRaise | backend/app/api/v1/file_processing.py:266-269 | the slide loop raises exactly when some slide raises, with the first such slide's error |
| ParsedText.SlideTextPartsTruthy | backend/app/api/v1/file_processing.py:266-269 | dict slides never raise; every slide text taken is truthy, and at most one per slide |
| ParsedText.UploadEmpty | backend/app/api/v1/file_processing.py:260-282 | a result without slides, extracted_text or file_name gives "" |
| ParsedText.UploadOrder | backend/app/api/v1/file_processing.py:266-277 | a raising slide makes the whole helper raise; otherwise the parts are the truthy slide texts, then extracted_text, then "File: <name>", so PowerPoint slide texts appear twice |
| VectorStore.Matching | backend/app/core/langchain/memory/document_memory.py:109-114 | the chunks a metadata filter admits: no more than the store holds, each one a stored chunk that matches, every matching chunk included |
| VectorStore.MatchingAppend | backend/app/core/langchain/memory/document_memory.py:236-240 | filtering a concatenated store is the concatenation of the filtered parts |
| VectorStore.StoreIdsHaveChunks | backend/app/core/langchain/memory/document_memory.py:101-104 | an id is among the store's document ids exactly when some chunk carries it |
| VectorStore.WithoutMembers | backend/app/core/langchain/memory/document_memory.py:419-421 | a delete by document id keeps exactly the chunks not carrying a removed id |
| VectorStore.WithoutNothing | backend/app/core/langchain/memory/document_memory.py:419-421 | deleting no ids leaves the store as it is |
| VectorStore.WithoutTwice | backend/app/core/langchain/memory/document_memory.py:659-661 | two deletes in a row equal one delete of both id sets |
| VectorStore.StoreIdsWithout | backend/app/core/langchain/memory/document_memory.py:419-421 | deleting documents removes exactly their ids from the store's id set |
| VectorStore.ChunkStore.constructor | backend/app/core/langchain/memory/document_memory.py:67-70 | the store opens holding the persisted chunks |
| VectorStore.ChunkStore.Add | backend/app/core/langchain/memory/document_memory.py:205 | add_documents appends the new chunks after the stored ones |
| VectorStore.ChunkStore.GetAll | backend/app/core/langchain/memory/document_memory.py:96 | collection.get() answers every chunk record |
| VectorStore.ChunkStore.DeleteWhereDocument | backend/app/core/langchain/memory/document_memory.py:419-421 | the delete where document_id matches drops that document's chunks and nothing else |
| VectorStore.ChunkStore.DeleteAll | backend/app/core/langchain/memory/document_memory.py:610-615 | deleting by every id empties the store |
| VectorStore.ChunkStore.Query | backend/app/core/langchain/memory/document_memory.py:110-114 | a filtered query with limit k answers exactly min(k, n) of the n matching chunks, each at most as often as stored, in an unspecified ranking order |
| VectorStore.QueryCoversAll | backend/app/core/langchain/memory/document_memory.py:280-284 | when the limit covers every match, the query answers all the matches up to order |
| Memory.ParseType | backend/app/core/langchain/memory/document_memory.py:22-30 | DocumentType(value) accepts only the eight enum values, and the accepted value is the member's own |
| Memory.ParseTypeValue | backend/app/core/langchain/memory/document_memory.py:22-30 | every DocumentType is parsed back from its value |
| Memory.StoredChunksShape | backend/app/core/langchain/memory/document_memory.py:183-202 | store_document makes one chunk per splitter piece, each with the document id, chunk_index i, total_chunks n, has_property_data, and no file_size |
| Memory.StoredChunksIds | backend/app/core/langchain/memory/document_memory.py:183-202 | the stored chunks carry only the new id, and none at all when the content splits into nothing |
| Memory.ChunksOfAfterStore | backend/app/core/langchain/memory/document_memory.py:183-205 | after storing under a fresh id, the chunks of that id are exactly the new ones, in order |
| Memory.RebuildForgetsSizeAndPropertyData | backend/app/core/langchain/memory/document_memory.py:117-130 | rebuilding from a chunk store_document wrote gives the stored record back except file_size 0 and no property data |
| Memory.ProbeChoiceIrrelevant | backend/app/core/langchain/memory/document_memory.py:107-133 | on a coherent store, the record rebuild makes does not depend on which chunk the k=1 probe returns |
| Memory.RebuildComplete | backend/app/core/langchain/memory/document_memory.py:101-133 | a rebuild that probed every stored id yields exactly the Rebuilt map: stored ids get their record, other entries stay |
| Memory.RebuiltKeys | backend/app/core/langchain/memory/document_memory.py:101-133 | the rebuilt map's keys are the old keys plus the store's document ids |
| Memory.RebuildAgreesEach | backend/app/core/langchain/memory/document_memory.py:107-133 | every entry of a complete rebuild agrees with Rebuilt |
| Memory.ProbesReadable | backend/app/core/langchain/memory/document_memory.py:123 | a rebuild that made a record for every stored id met no unreadable document_type |
| Memory.RebuildOutcome | backend/app/core/langchain/memory/document_memory.py:90-137 | the walk finishes exactly when every document_type is readable; when it stops it keeps the entries already added; finished on a coherent store it yields Rebuilt |
| Memory.RebuildIdempotent | backend/app/core/langchain/memory/document_memory.py:85-137 | repeating a complete rebuild over an unchanged store changes nothing |
| Memory.StoreKeepsCoherent | backend/app/core/langchain/memory/document_memory.py:186-205 | appending a fresh document's chunks keeps every document's chunks in agreement and every type readable |
| Memory.FormatEach | backend/app/core/langchain/memory/document_memory.py:243-264 | the formatting loop of search_documents computes FormatHits: one result per hit with a cache entry, in hit order |
| Memory.FormatHitsAppend | backend/app/core/langchain/memory/document_memory.py:243-264 | formatting distributes over concatenated hit lists |
| Memory.FormatHitsFacts | backend/app/core/langchain/memory/document_memory.py:244-264 | never more results than hits, as many exactly when every hit's document is cached, each with the cached filename, type, tags and (only when asked and non-empty) property data |
| Memory.FormatHitsLength | backend/app/core/langchain/memory/document_memory.py:246-248 | hits without a cache entry are the only ones dropped |
| Memory.FormatHitsCached | backend/app/core/langchain/memory/document_memory.py:249-262 | each result is built from a hit and the cached record of its document |
| Memory.InsertByFacts | backend/app/core/langchain/memory/document_memory.py:290 | inserting into a list sorted by key keeps it sorted and adds exactly the element |
| Memory.SortByFacts | backend/app/core/langchain/memory/document_memory.py:290 | sorted(key=chunk_index) is sorted by the key and a permutation of its input |
| Memory.SortedUnique | backend/app/core/langchain/memory/document_memory.py:290 | a sorted permutation of a strictly increasing list is that list, so distinct chunk indexes fix the order |
| Memory.Contents | backend/app/core/langchain/memory/document_memory.py:291 | the page contents of the sorted chunks, position by position |
| Memory.Summarize | backend/app/core/langchain/memory/document_memory.py:289-316 | a summary carries the requested id and never any property data |
| Memory.ReassembleStored | backend/app/core/langchain/memory/document_memory.py:286-316 | reading back a stored document yields the splitter's pieces joined by "\n" and its filename, whatever order the query returns the chunks in |
| Memory.FailedIds | backend/app/core/langchain/memory/document_memory.py:474-477 | the ids of the failure entries, in order |
| Memory.BatchChunks | backend/app/core/langchain/memory/document_memory.py:461-497 | delete_documents_by_ids removes from the store exactly the chunks of the deleted ids |
| Memory.BatchDeletedDistinct | backend/app/core/langchain/memory/document_memory.py:461-491 | each id is deleted at most once, only stored ids are deleted, and the store's ids lose exactly the deleted ones |
| Memory.BatchAccounting | backend/app/core/langchain/memory/document_memory.py:461-497 | every requested id is reported exactly once, as deleted or as failed, so deleted plus failed equals the request count |
| Memory.BatchMetadata | backend/app/core/langchain/memory/document_memory.py:480-488 | the map loses the deleted ids and the ids whose store delete raised, since the record goes before the store call |
| Memory.BatchErrors | backend/app/core/langchain/memory/document_memory.py:493-497 | a store error is reported only for a stored id whose delete raises |
| Memory.BatchComplete | backend/app/core/langchain/memory/document_memory.py:461-491 | every requested id that is stored and whose delete does not raise ends up deleted |
| Memory.FilterRunFacts | backend/app/core/langchain/memory/document_memory.py:563-573 | deleting the selected ids reports each, in order, under "Unknown", removes all their records and the chunks of those whose store delete does not raise |
| Memory.FilterRunRecords | backend/app/core/langchain/memory/document_memory.py:563-571 | every selected id is reported deleted with filename "Unknown" and its record removed |
| Memory.FilterRunChunks | backend/app/core/langchain/memory/document_memory.py:419-428 | the store loses the chunks of the selected ids whose delete does not raise |
| Memory.CleanupRunFacts | backend/app/core/langchain/memory/document_memory.py:658-664 | over distinct orphans, the count is the number of deletes that did not raise and those orphans' chunks are gone |
| Memory.CleanupRunChunks | backend/app/core/langchain/memory/document_memory.py:659-664 | the cleanup loop removes the chunks of the orphans whose delete does not raise |
| Memory.CleanupRunCount | backend/app/core/langchain/memory/document_memory.py:658-662 | cleaned_count counts the orphans whose delete did not raise |
| Memory.SizeSumRemove | backend/app/core/langchain/memory/document_memory.py:687 | the size total splits as one record's file_size plus the total over the rest |
| Memory.SumTypeCountsSet | backend/app/core/langchain/memory/document_memory.py:690-693 | summing the per-type counts over distinct types counts the records of those types |
| Memory.TypeCountsSumToTotal | backend/app/core/langchain/memory/document_memory.py:686-693 | the per-type counts add up to total_documents |
| Memory.PropertySplit | backend/app/core/langchain/memory/document_memory.py:696-706 | records with and without property data together are all the records |
| Memory.CollectDocumentIds | backend/app/core/langchain/memory/document_memory.py:101-104 | the metadata walk collects exactly the distinct document ids of the store |
| Memory.DocumentMemory.constructor | backend/app/core/langchain/memory/document_memory.py:51-83 | starting from an empty map and rebuilding, the records name only stored ids, every stored id when all types are readable, and exactly Rebuilt on a coherent store |
| Memory.DocumentMemory.Rebuild | backend/app/core/langchain/memory/document_memory.py:85-137 | one record per stored id from whichever chunk the probe returns; an unreadable type stops the walk keeping the records added; a finished walk on a coherent store yields Rebuilt |
| Memory.DocumentMemory.ProbeDocument | backend/app/core/langchain/memory/document_memory.py:109-130 | the k=1 probe of a stored id gives the record of one of its chunks, or nothing only when some type is unreadable |
| Memory.DocumentMemory.StoreDocument | backend/app/core/langchain/memory/document_memory.py:139-207 | the record is registered under the fresh id, the store gains exactly that document's chunks, and the id is returned |
| Memory.DocumentMemory.SearchDocuments | backend/app/core/langchain/memory/document_memory.py:209-266 | the query uses the type and has_property_data filter, answers at most limit matching chunks, and the results are those hits formatted against the cache |
| Memory.DocumentMemory.GetDocumentById | backend/app/core/langchain/memory/document_memory.py:268-316 | None exactly when no chunk carries the id; otherwise the summary of up to 1000 of its chunks sorted by chunk_index |
| Memory.DocumentMemory.GetAllDocuments | backend/app/core/langchain/memory/document_memory.py:318-392 | one summary per distinct stored id, no id twice, every stored id present, none with property data |
| Memory.DocumentMemory.SummarizeEach | backend/app/core/langchain/memory/document_memory.py:347-390 | the loop over the ids produces one summary of each, in order |
| Memory.DocumentMemory.SummarizeDocument | backend/app/core/langchain/memory/document_memory.py:349-390 | the per-document step: query, sort, join into the document's summary |
| Memory.DocumentMemory.DeleteDocument | backend/app/core/langchain/memory/document_memory.py:394-428 | True exactly when the id has a record; then the record goes and the chunks go unless the store delete raises; otherwise nothing changes |
| Memory.DocumentMemory.ProbeAndDelete | backend/app/core/langchain/memory/document_memory.py:464-488 | an id is found exactly when the store holds it, and its chunks are deleted unless the delete raises |
| Memory.DocumentMemory.DeleteDocumentsByIds | backend/app/core/langchain/memory/document_memory.py:430-508 | empty input gives success with count 0 and no change; otherwise the new state and report are BatchRun's, success exactly when nothing failed |
| Memory.DocumentMemory.DeleteDocumentsByFilter | backend/app/core/langchain/memory/document_memory.py:510-580 | every selected record is deleted and reported once under "Unknown", the count and total_found equal the number selected, and no error is reported |
| Memory.DocumentMemory.DeleteEach | backend/app/core/langchain/memory/document_memory.py:562-573 | the deletion loop computes FilterRun over the selected ids |
| Memory.DocumentMemory.SelectForDeletion | backend/app/core/langchain/memory/document_memory.py:542-560 | exactly the cached ids whose record passes every truthy filter, each once |
| Memory.DocumentMemory.ClearAllDocuments | backend/app/core/langchain/memory/document_memory.py:582-628 | the map always ends empty; when collection.delete raises on a non-empty store the answer is "Failed to clear all documents: <e>" with the store unchanged, otherwise success with the number of chunk records as the count and the store empty |
| Memory.DocumentMemory.CleanupOrphanedDocuments | backend/app/core/langchain/memory/document_memory.py:630-671 | the orphans are exactly the stored ids without a record; each is deleted unless its delete raises; the count is the deletes that ran; the map is untouched |
| Memory.DocumentMemory.CleanupOne | backend/app/core/langchain/memory/document_memory.py:660-664 | one orphan is deleted and counted, or nothing changes when the delete raises |
| Memory.DocumentMemory.GetDocumentStats | backend/app/core/langchain/memory/document_memory.py:679-707 | total documents, total size, per-type counts present exactly for the types that occur, and the with and without property data counts, all read from the map |
| Memory.Enumerate | backend/app/core/langchain/memory/document_memory.py:107 | iterating a set visits each member once |
| Memory.CountDocument | backend/app/core/langchain/memory/document_memory.py:687-699 | one document is added to every tally of the stats |
| Memory.TallyType | backend/app/core/langchain/memory/document_memory.py:691-693 | the per-type dict update counts the new record under its type |
| Memory.TallyPropertyData | backend/app/core/langchain/memory/document_memory.py:696-699 | the with-property-data count grows exactly when the new record has data |
| Memory.SummariesCover | backend/app/core/langchain/memory/document_memory.py:341-390 | one summary per enumerated id gives one summary per distinct stored id |
| Memory.DistinctCard | backend/app/core/langchain/memory/document_memory.py:579 | a list without repeats has as many members as elements, so total_found counts the selected ids |
| ParallelNodes.DetermineAgentType | backend/app/core/langgraph/nodes/parallel_processing_nodes.py:398-417 | the table scan returns AgentFor: the first entry listing the lower-cased type or "*" |
| ParallelNodes.FirstAcceptingIsFirst | backend/app/core/langgraph/nodes/parallel_processing_nodes.py:410-414 | the agent found accepts the type and no entry before it does; none found means no entry accepts |
| ParallelNodes.AgentTableShape | backend/app/core/langgraph/nodes/parallel_processing_nodes.py:27-82 | the eight specialists come first, none takes every type, and the general agent with "*" is last |
| ParallelNodes.AgentForIsFirstMatch | backend/app/core/langgraph/nodes/parallel_processing_nodes.py:408-417 | a specialist is chosen exactly when it lists the lower-cased type; the general agent exactly when no specialist does |
| ParallelNodes.AgentForFileType | backend/app/core/langgraph/nodes/parallel_processing_nodes.py:123-126 | of the router's type values, pdf, csv, rtf and odt reach their specialists; word, powerpoint, excel, text and unsupported reach the general agent |
| ParallelNodes.ToGeneral | backend/app/core/langgraph/nodes/parallel_processing_nodes.py:411-417 | a lower-case type no specialist lists goes to the general agent |
| ParallelNodes.NotListed | backend/app/core/langgraph/nodes/parallel_processing_nodes.py:27-82 | word, powerpoint, excel, text and unsupported appear in no specialist's supported_types |
| ParallelNodes.SpecialistIndex | backend/app/core/langgraph/nodes/parallel_processing_nodes.py:27-82 | every specialist is one of the first eight entries |
| ParallelNodes.OnlyListedBy | backend/app/core/langgraph/nodes/parallel_processing_nodes.py:27-82 | pdf, csv, rtf and odt are each listed by exactly one specialist, and go to it |
| ParallelNodes.OnlyListerChosen | backend/app/core/langgraph/nodes/parallel_processing_nodes.py:410-414 | a lower-case type whose only lister is a specialist is assigned that specialist |
| ParallelNodes.SingleLister | backend/app/core/langgraph/nodes/parallel_processing_nodes.py:27-82 | no two agents list the same one of pdf, csv, rtf, odt |
| ParallelNodes.Pool | backend/app/core/langgraph/nodes/parallel_processing_nodes.py:113-115 | a pool has exactly max_concurrent worker ids |
| ParallelNodes.PoolShape | backend/app/core/langgraph/nodes/parallel_processing_nodes.py:110-115 | no pool is empty and no pool repeats a worker id |
| ParallelNodes.ValuesDiffer | backend/app/core/langgraph/nodes/parallel_processing_nodes.py:114 | two agent values already differ in their first two characters |
| ParallelNodes.PoolPrefix | backend/app/core/langgraph/nodes/parallel_processing_nodes.py:114 | a worker id starts with an agent's value exactly when it is in that agent's pool |
| ParallelNodes.ParsedContent | backend/app/core/langgraph/nodes/parallel_processing_nodes.py:307-325 | a parse succeeds only when the agent's request reaches a parser entry point, and a specialist's result then carries its agent_enhancements |
| ParallelNodes.StoreText | backend/app/core/langgraph/nodes/parallel_processing_nodes.py:338-388 | success exactly when the extractor and the store both succeed, and then the document id and property data are theirs |
| ParallelNodes.ProcessSingleFile | backend/app/core/langgraph/nodes/parallel_processing_nodes.py:289-396 | the result names the agent's value and name; success exactly when there is no error and exactly when there is a document id; success only when a parser was reached |
| ParallelNodes.ParseDispatchCalls | backend/app/core/langgraph/nodes/parallel_processing_nodes.py:307-325 | only the PDF specialist and the general route for PDF and PowerPoint names reach a parser; every other agent's request raises before parsing |
| ParallelNodes.NoTextSkipsExtractorAndStore | backend/app/core/langgraph/nodes/parallel_processing_nodes.py:328-336 | a parse that yields no text ends with the no-text failure whatever the extractor and store would do |
| ParallelNodes.StoredUnderMappedType | backend/app/core/langgraph/nodes/parallel_processing_nodes.py:338-375 | a successful file had non-empty text, was extracted, and was stored under the type its file type maps to |
| ParallelNodes.DocumentTypeAgreement | backend/app/core/langgraph/nodes/parallel_processing_nodes.py:350-362 | pdf, csv, rtf and odt are stored under the DocumentType of the same value; word, powerpoint, excel and text are values DocumentType does not parse and go through the mapping |
| ParallelNodes.Members | backend/app/core/langgraph/nodes/parallel_processing_nodes.py:166-171 | a group lists positions of the task list |
| ParallelNodes.GroupStep | backend/app/core/langgraph/nodes/parallel_processing_nodes.py:166-171 | one more task extends its type's group by its position and adds its type as a new key on first sight |
| ParallelNodes.TypeOrderMembers | backend/app/core/langgraph/nodes/parallel_processing_nodes.py:166-171 | a type is a key exactly when its group is not empty |
| ParallelNodes.TypeOrderDistinct | backend/app/core/langgraph/nodes/parallel_processing_nodes.py:166-171 | no type is a key twice |
| ParallelNodes.MembersShape | backend/app/core/langgraph/nodes/parallel_processing_nodes.py:166-171 | the k-th member of a group is a selected task of that type with exactly k before it |
| ParallelNodes.MembersPrefix | backend/app/core/langgraph/nodes/parallel_processing_nodes.py:166-171 | the group of a prefix is a prefix of the group |
| ParallelNodes.MembersComplete | backend/app/core/langgraph/nodes/parallel_processing_nodes.py:166-171 | every selected task of a type sits in its group at the position of its rank |
| ParallelNodes.GroupTasks | backend/app/core/langgraph/nodes/parallel_processing_nodes.py:166-171 | the grouping loop builds exactly the groups, keyed in first-appearance order |
| ParallelNodes.ReachStep | backend/app/core/langgraph/nodes/parallel_processing_nodes.py:177-182 | taking member i of a group reaches exactly that one more task |
| ParallelNodes.AssignTaskStep | backend/app/core/langgraph/nodes/parallel_processing_nodes.py:179-182 | assigning the i-th task of a group gives it worker i mod pool size and PROCESSING |
| ParallelNodes.RecordStep | backend/app/core/langgraph/nodes/parallel_processing_nodes.py:179-180 | recording the i-th task keeps every reached task recorded with its round-robin worker |
| ParallelNodes.RecordKeysStep | backend/app/core/langgraph/nodes/parallel_processing_nodes.py:180 | recording a task id adds only task-id keys and keeps other keys of the initial map |
| ParallelNodes.RecordReachStep | backend/app/core/langgraph/nodes/parallel_processing_nodes.py:180 | the newly reached task gets its worker and earlier records stay, when ids are unique |
| ParallelNodes.GroupDone | backend/app/core/langgraph/nodes/parallel_processing_nodes.py:174-182 | a finished group's tasks count as reached once the next group starts |
| ParallelNodes.GroupStart | backend/app/core/langgraph/nodes/parallel_processing_nodes.py:174-177 | before a group starts nothing of it is reached |
| ParallelNodes.AllReached | backend/app/core/langgraph/nodes/parallel_processing_nodes.py:174-182 | with every group through, every task is reached |
| ParallelNodes.AllAssigned | backend/app/core/langgraph/nodes/parallel_processing_nodes.py:174-182 | with every group through, every task is assigned its round-robin worker and PROCESSING |
| ParallelNodes.AllGroupsDone | backend/app/core/langgraph/nodes/parallel_processing_nodes.py:174-182 | with every group through, every task id is recorded, with its worker when ids are unique |
| ParallelNodes.AssignOneGroup | backend/app/core/langgraph/nodes/parallel_processing_nodes.py:174-182 | one pass of the outer loop assigns and records the whole g-th group |
| ParallelNodes.AssignGroup | backend/app/core/langgraph/nodes/parallel_processing_nodes.py:177-182 | the inner loop assigns and records every member of one group |
| ParallelNodes.MembersIn | backend/app/core/langgraph/nodes/parallel_processing_nodes.py:208-213 | a position is in a group exactly when its task is selected and of that type, and no position twice |
| ParallelNodes.ConcatenatedIn | backend/app/core/langgraph/nodes/parallel_processing_nodes.py:219-223 | the concatenated groups hold each PROCESSING task of the listed types exactly once |
| ParallelNodes.RunOrderExact | backend/app/core/langgraph/nodes/parallel_processing_nodes.py:207-223 | the node runs each PROCESSING task exactly once and nothing else |
| ParallelNodes.Record | backend/app/core/langgraph/nodes/parallel_processing_nodes.py:229-247 | recording one result keeps the task list's length |
| ParallelNodes.ApplyOutcomes | backend/app/core/langgraph/nodes/parallel_processing_nodes.py:229-247 | the update loop computes RecordAll over the gathered results |
| ParallelNodes.RecordAllLists | backend/app/core/langgraph/nodes/parallel_processing_nodes.py:229-247 | the completed, failed and error lists grow by exactly the results' entries, in order, and the counters by their lengths |
| ParallelNodes.RecordAllIndices | backend/app/core/langgraph/nodes/parallel_processing_nodes.py:229-244 | the lists only ever name positions of the task list |
| ParallelNodes.GatheredPrefix | backend/app/core/langgraph/nodes/parallel_processing_nodes.py:226 | the first n gathered results are those of the first n positions |
| ParallelNodes.RecordAllTasks | backend/app/core/langgraph/nodes/parallel_processing_nodes.py:229-244 | recording results for distinct positions finishes exactly those tasks with their own outcomes and leaves the rest |
| ParallelNodes.FinishOne | backend/app/core/langgraph/nodes/parallel_processing_nodes.py:231-244 | finishing one more task extends the finished positions by it |
| ParallelNodes.OverallFailedIff | backend/app/core/langgraph/nodes/parallel_processing_nodes.py:250-255 | the status is FAILED exactly when some task failed and none completed, COMPLETED otherwise |
| ParallelNodes.InitialTasks | backend/app/core/langgraph/nodes/parallel_processing_nodes.py:118-137 | one task per file |
| ParallelNodes.BuildPools | backend/app/core/langgraph/nodes/parallel_processing_nodes.py:110-115 | the pool loop builds Pools() |
| ParallelNodes.BuildTasks | backend/app/core/langgraph/nodes/parallel_processing_nodes.py:117-137 | the task loop builds one PENDING task per file, in order |
| ParallelNodes.RoundRobinAll | backend/app/core/langgraph/nodes/parallel_processing_nodes.py:166-182 | every task gets its round-robin worker and PROCESSING, and every id is recorded |
| ParallelNodes.PendingOrder | backend/app/core/langgraph/nodes/parallel_processing_nodes.py:207-223 | the PROCESSING tasks lined up group by group: RunOrder |
| ParallelNodes.ParallelState.constructor | backend/app/core/langgraph/workflows/parallel_processing_workflow.py:75-79 | the initial state holds the files and their number, with no tasks, pools or assignments, zero counters and status PENDING |
| ParallelNodes.ParallelState.Initialize | backend/app/core/langgraph/nodes/parallel_processing_nodes.py:84-145 | a pool per agent type, a PENDING task per file, empty lists and zero counters, status ASSIGNED |
| ParallelNodes.ParallelState.Start | backend/app/core/langgraph/nodes/parallel_processing_nodes.py:96-143 | installs the pools and tasks with empty results and status ASSIGNED |
| ParallelNodes.ParallelState.AssignAgents | backend/app/core/langgraph/nodes/parallel_processing_nodes.py:152-191 | a no-op unless ASSIGNED; otherwise every task gets its round-robin worker, is recorded under its id and becomes PROCESSING, and the status becomes PROCESSING |
| ParallelNodes.ParallelState.ProcessFiles | backend/app/core/langgraph/nodes/parallel_processing_nodes.py:193-262 | a no-op unless PROCESSING; otherwise the tally becomes Processed and the status follows the failed/completed rule |
| ParallelNodes.ParallelState.Install | backend/app/core/langgraph/nodes/parallel_processing_nodes.py:229-255 | writes a tally and a status back, leaving pools and assignments |
| ParallelNodes.RunProcessing | backend/app/core/langgraph/nodes/parallel_processing_nodes.py:207-255 | the node body computes Processed and the status rule, keeping the lists in range |
| ParallelNodes.ProcessingEffect | backend/app/core/langgraph/nodes/parallel_processing_nodes.py:229-244 | every PROCESSING task finishes with its own outcome and every other task is left alone |
| ParallelNodes.EntriesPartition | backend/app/core/langgraph/nodes/parallel_processing_nodes.py:231-247 | every result lands in exactly one list, stored counts at most the completed, and one error line per failure |
| ParallelNodes.ProcessingCounts | backend/app/core/langgraph/nodes/parallel_processing_nodes.py:229-247 | completed and failed lists and counters grow by the run tasks' outcomes in run order; successful plus failed increments equal the number run; stored at most successful |
| ParallelWorkflow.At | backend/app/core/langgraph/workflows/parallel_processing_workflow.py:117-142 | the tasks a position list names, one per position |
| ParallelWorkflow.ResultsOrder | backend/app/core/langgraph/workflows/parallel_processing_workflow.py:116-145 | results are the completed tasks' successful entries followed by exactly one unsuccessful entry per failed task, in order, with its agent type and error message |
| ParallelWorkflow.SucceededOnly | backend/app/core/langgraph/workflows/parallel_processing_workflow.py:117-130 | every entry a completed task contributes says success |
| ParallelWorkflow.CompletedResultsFrom | backend/app/core/langgraph/workflows/parallel_processing_workflow.py:118-130 | a completed task has an entry exactly when it carries a result, and every entry comes from one |
| ParallelWorkflow.AllCompletedListed | backend/app/core/langgraph/workflows/parallel_processing_workflow.py:117-130 | when every completed task carries a result, each contributes exactly one entry |
| ParallelWorkflow.WrittenKeys | backend/app/core/langgraph/workflows/parallel_processing_workflow.py:148-154 | a dict written pair by pair holds its old keys and the written ones |
| ParallelWorkflow.WrittenAppend | backend/app/core/langgraph/workflows/parallel_processing_workflow.py:148-154 | writing two runs of pairs is writing the first, then the second |
| ParallelWorkflow.WrittenUntouched | backend/app/core/langgraph/workflows/parallel_processing_workflow.py:148-154 | a key no pair writes keeps its value |
| ParallelWorkflow.WrittenLast | backend/app/core/langgraph/workflows/parallel_processing_workflow.py:148-154 | the last write of a key decides its value |
| ParallelWorkflow.FailedPairsOf | backend/app/core/langgraph/workflows/parallel_processing_workflow.py:152-154 | one pair per failed task |
| ParallelWorkflow.FailedWin | backend/app/core/langgraph/workflows/parallel_processing_workflow.py:148-154 | a failed task's filename maps to the agent type of the last failed task with that name, whatever the completed tasks wrote |
| ParallelWorkflow.CompletedKept | backend/app/core/langgraph/workflows/parallel_processing_workflow.py:149-151 | a completed task's agent type stays when no failed task and no later typed completed task shares its filename |
| ParallelWorkflow.CompletedPairsAround | backend/app/core/langgraph/workflows/parallel_processing_workflow.py:149-151 | the completed pairs split around task k, which writes one |
| ParallelWorkflow.PairsAfterElsewhere | backend/app/core/langgraph/workflows/parallel_processing_workflow.py:149-154 | no pair written after completed task k names its filename |
| ParallelWorkflow.LaterPairsElsewhere | backend/app/core/langgraph/workflows/parallel_processing_workflow.py:149-151 | the completed pairs after task k do not name its filename |
| ParallelWorkflow.AssignmentKeys | backend/app/core/langgraph/workflows/parallel_processing_workflow.py:148-154 | the dict's keys are exactly the filenames of failed tasks and of completed tasks with a typed result |
| ParallelWorkflow.PairOrigin | backend/app/core/langgraph/workflows/parallel_processing_workflow.py:148-154 | every written pair comes from a failed task or a completed task with a typed result |
| ParallelWorkflow.CompletedPairOrigin | backend/app/core/langgraph/workflows/parallel_processing_workflow.py:149-151 | every completed pair comes from a completed task with a typed result |
| ParallelWorkflow.FailedPairOrigin | backend/app/core/langgraph/workflows/parallel_processing_workflow.py:152-154 | every failed pair comes from a failed task |
| ParallelWorkflow.AgentStatistics | backend/app/core/langgraph/workflows/parallel_processing_workflow.py:174-217 | an entry exactly for each agent type among the tasks, with its total, COMPLETED and other counts |
| ParallelWorkflow.StatsPartition | backend/app/core/langgraph/workflows/parallel_processing_workflow.py:198-205 | every agent's total is its successes plus its failures |
| ParallelWorkflow.StatsGroupSize | backend/app/core/langgraph/workflows/parallel_processing_workflow.py:187-198 | an agent's total is the size of its group |
| ParallelWorkflow.StatsCoverTasks | backend/app/core/langgraph/workflows/parallel_processing_workflow.py:187-198 | over all nine agent types the totals count every task once |
| ParallelWorkflow.UsedIdsIn | backend/app/core/langgraph/workflows/parallel_processing_workflow.py:293-296 | an id is used exactly when some task holds it and it is not empty |
| ParallelWorkflow.UsedAgents | backend/app/core/langgraph/workflows/parallel_processing_workflow.py:293-296 | the set loop collects exactly the used ids |
| ParallelWorkflow.AgentUtilization | backend/app/core/langgraph/workflows/parallel_processing_workflow.py:274-301 | one count per pool: 0 for an empty pool, else the number of used ids starting with the agent's value |
| ParallelWorkflow.EveryAgentType | backend/app/core/langgraph/nodes/parallel_processing_nodes.py:110 | every agent type is in the enumeration the pools are built from |
| ParallelWorkflow.PoolsCoverAll | backend/app/core/langgraph/nodes/parallel_processing_nodes.py:110-115 | every task's agent type has a non-empty pool |
| ParallelWorkflow.InitialPoolsSeparate | backend/app/core/langgraph/nodes/parallel_processing_nodes.py:110-115 | the initial pools repeat no id, each id starts with exactly its own agent's value, and each has max_concurrent ids |
| ParallelWorkflow.PrefixIdsDistinct | backend/app/core/langgraph/nodes/parallel_processing_nodes.py:113-115 | the first q ids of a pool without repeats are q different ids |
| ParallelWorkflow.UsedByType | backend/app/core/langgraph/workflows/parallel_processing_workflow.py:298 | a used id starting with an agent's value is one of the first min(m, pool size) ids of its pool |
| ParallelWorkflow.TypeUsesPrefix | backend/app/core/langgraph/nodes/parallel_processing_nodes.py:177-181 | each of the first min(m, pool size) ids of a pool is used |
| ParallelWorkflow.WorkersUsed | backend/app/core/langgraph/workflows/parallel_processing_workflow.py:292-298 | after the round robin, m tasks of a type over a pool of k workers use exactly min(m, k) ids with that prefix |
| ParallelWorkflow.AssignedAll | backend/app/core/langgraph/nodes/parallel_processing_nodes.py:177-182 | the assign node keeps the task count |
| ParallelWorkflow.DistinctCount | backend/app/core/langgraph/nodes/parallel_processing_nodes.py:219-223 | a list without repeats has as many distinct elements as positions |
| ParallelWorkflow.Indices | backend/app/core/langgraph/nodes/parallel_processing_nodes.py:119 | the positions 0 .. n-1 in order |
| ParallelWorkflow.RunsEveryTask | backend/app/core/langgraph/nodes/parallel_processing_nodes.py:208-223 | when every task is PROCESSING, each is run once |
| ParallelWorkflow.CompletedWereReturned | backend/app/core/langgraph/nodes/parallel_processing_nodes.py:239-244 | a completed position came from the run order and its run returned |
| ParallelWorkflow.CompletedCarryResults | backend/app/core/langgraph/nodes/parallel_processing_nodes.py:240-244 | every task listed as completed carries the result its run returned |
| ParallelWorkflow.RunCounts | backend/app/core/langgraph/nodes/parallel_processing_nodes.py:229-247 | on fresh tasks every task lands in exactly one list, the counters match the lists, and stored is at most successful |
| ParallelWorkflow.RunTasks | backend/app/core/langgraph/nodes/parallel_processing_nodes.py:229-247 | on fresh tasks every task ends COMPLETED or FAILED with its agent type and round-robin worker, and every completed one carries its result |
| ParallelWorkflow.MembersByType | backend/app/core/langgraph/nodes/parallel_processing_nodes.py:166-171 | only the agent types decide the groups |
| ParallelWorkflow.RunOutcome | backend/app/core/langgraph/nodes/parallel_processing_nodes.py:250-255 | after one run the counters cover every file, stored is at most successful, and the status is FAILED exactly when there were files and none succeeded |
| ParallelWorkflow.RunResultsCount | backend/app/core/langgraph/workflows/parallel_processing_workflow.py:144-145 | after one run every task contributes exactly one results entry |
| ParallelWorkflow.RunAgents | backend/app/core/langgraph/workflows/parallel_processing_workflow.py:186-205 | per agent type after a run: total is the group size and splits into successes and failures, and the used-worker count is min(group size, max_concurrent) |
| ParallelWorkflow.FormatResults | backend/app/core/langgraph/workflows/parallel_processing_workflow.py:100-172 | success exactly when the final status is COMPLETED; the state's counters and errors; completed then failed results; the assignments dict; the statistics and utilisation counts |
| ParallelWorkflow.ProcessFiles | backend/app/core/langgraph/workflows/parallel_processing_workflow.py:59-98 | a raised graph gives the failure answer (not successful, every file failed, no results); otherwise every file counted once, stored at most successful, success exactly when there were no files or some succeeded, one result per file, statistics per present type, utilisation min(group, pool) |
| ParallelWorkflow.PoolsNonEmpty | backend/app/core/langgraph/nodes/parallel_processing_nodes.py:110-115 | every agent type has a non-empty pool |
| ParallelWorkflow.RunAllAgents | backend/app/core/langgraph/workflows/parallel_processing_workflow.py:186-205 | RunAgents for every agent type at once |
| FileRouting.LastDot | backend/app/services/file_router.py:84 | the index of the last '.' in a name, or -1 when it has none, as str.rfind |
| FileRouting.NameSuffix | backend/app/services/file_router.py:84 | Path.suffix of a final component: empty, or a '.'-led proper tail of the name |
| FileRouting.Lookup | backend/app/services/file_router.py:85 | dict.get on the extension table: any type other than UNSUPPORTED comes from an entry listing that extension |
| FileRouting.ExtensionTableShape | backend/app/services/file_router.py:36-60 | every type in the table is a real type and no extension is listed twice |
| FileRouting.LookupListed | backend/app/services/file_router.py:85 | on a table without repeated extensions, a listed extension looks up exactly the type beside it |
| FileRouting.SupportedIffListed | backend/app/services/file_router.py:84-97 | is_supported holds exactly when the lower-cased suffix is one of the table's extensions, and get_file_type then gives the listed type |
| FileRouting.PowerpointRouted | backend/app/services/file_router.py:38-39 | a file ending in .pptx or .ppt, in any case, is a PowerPoint file |
| FileRouting.LowerSuffix | backend/app/services/file_router.py:84 | lower-casing a path lower-cases its suffix |
| FileRouting.GetFileTypeIgnoresCase | backend/app/services/file_router.py:84-85 | the type found does not depend on letter case anywhere in the name |
| FileRouting.PathRoute | backend/app/services/file_router.py:110-138 | parse_file raises ValueError naming the file exactly for an unsupported one; every other type reaches its registered parser, PowerPoint through parse_powerpoint and the rest through parse_file |
| FileRouting.BytesRoute | backend/app/services/file_router.py:151-179 | parse_file_from_bytes raises ValueError for an unsupported file; only PDF and PowerPoint reach a bytes entry point their parser defines, every other type fails with AttributeError at the call |
| FileRouting.NeverNotImplemented | backend/app/services/file_router.py:115-138 | neither entry point can reach its NotImplementedError branches, since the registry covers every supported type |
| FileRouting.ExtensionsOfMembers | backend/app/services/file_router.py:189-192 | the extensions collected for a type are exactly those the table lists beside it |
| FileRouting.FirstIndexOf | backend/app/services/file_router.py:190-191 | the first table position holding a type, none earlier |
| FileRouting.AddExtension | backend/app/services/file_router.py:190-192 | inserting or appending one extension keeps one entry per type: a known type's list grows at its end, a new type is appended last |
| FileRouting.GetSupportedFormats | backend/app/services/file_router.py:188-194 | one entry per type the table uses, in order of first appearance, each holding exactly that type's extensions in table order |
| FileRouting.FirstIndexInTypes | backend/app/services/file_router.py:189-191 | a type has a first table position exactly when the table uses it |
| FileRouting.ReportListsEachExtension | backend/app/services/file_router.py:188-194 | every table extension appears in the report once, under its own type |
| FileRouting.GetParserStatus | backend/app/services/file_router.py:203-209 | every type except UNSUPPORTED, in enum order, flagged as having a parser |
| FileNodes.CheckFile | backend/app/core/langgraph/nodes/file_processing_nodes.py:31-46 | the validate node's checks compute exactly Validated for the router's type of the name |
| FileNodes.FileState.constructor | backend/app/core/langgraph/workflows/file_processing_workflow.py:150-166 | the initial state dict: the file's content, name and path, PENDING status and every other key empty |
| FileNodes.FileState.Validate | backend/app/core/langgraph/nodes/file_processing_nodes.py:21-51 | validate_file_node leaves the state Validated describes: supported flag, type, size, and PARSING or FAILED with the unsupported-type message |
| FileNodes.FileState.Parse | backend/app/core/langgraph/nodes/file_processing_nodes.py:53-88 | parse_file_node leaves the state Parsed describes: the router's parse_file_from_bytes dispatched on the name's type, then the text helper |
| FileNodes.FileState.Extract | backend/app/core/langgraph/nodes/file_processing_nodes.py:90-121 | extract_property_data_node leaves the state Extracted describes |
| FileNodes.FileState.Store | backend/app/core/langgraph/nodes/file_processing_nodes.py:123-175 | store_in_memory_node leaves the state Stored describes |
| FileNodes.ValidateOutcome | backend/app/core/langgraph/nodes/file_processing_nodes.py:35-44 | PARSING exactly for a supported name, FAILED with the unsupported-type message otherwise; the size is the content's length; parse results and document id untouched |
| FileNodes.NodesIdleElsewhere | backend/app/core/langgraph/nodes/file_processing_nodes.py:64-65 | the parse, extract and store nodes change nothing unless the status is the one each starts from |
| FileNodes.ParseOutcome | backend/app/core/langgraph/nodes/file_processing_nodes.py:63-88 | from PARSING: FAILED exactly when the router or the parser raised or the text helper hit a non-string part, EXTRACTING exactly for a truthy text, STORING otherwise; a returned dict is kept |
| FileNodes.ExtractNeverFails | backend/app/core/langgraph/nodes/file_processing_nodes.py:100-121 | from EXTRACTING the node always moves on to STORING and touches only the property data, keeping an error dict when the agent raised |
| FileNodes.StoreOutcome | backend/app/core/langgraph/nodes/file_processing_nodes.py:133-175 | from STORING: COMPLETED without a store call for a falsy text; otherwise COMPLETED with the returned id, or FAILED when the store raised; stored exactly when an id came back |
| FileNodes.StoredTypeOf | backend/app/core/langgraph/nodes/file_processing_nodes.py:148-152 | DocumentType(file_type.lower()) names a document type only for PDF, CSV, RTF and ODT files; all others fall back to TXT |
| FileWorkflow.LabelsMapped | backend/app/core/langgraph/workflows/file_processing_workflow.py:42-123 | every label a router function returns is a key of that node's edge map |
| FileWorkflow.EdgesDescend | backend/app/core/langgraph/workflows/file_processing_workflow.py:39-79 | every edge leads further along the graph, so a run ends |
| FileWorkflow.Step | backend/app/core/langgraph/workflows/file_processing_workflow.py:32-36 | running one node on the state dict leaves the state Apply describes |
| FileWorkflow.ProcessFile | backend/app/core/langgraph/workflows/file_processing_workflow.py:132-195 | process_file reports the final state of the graph run from validate_file on a fresh state |
| FileWorkflow.StepEnters | backend/app/core/langgraph/workflows/file_processing_workflow.py:87-123 | after any node, its router sends the new state to a node that expects that status, and the remaining pipeline is unchanged |
| FileWorkflow.ValidateEnters | backend/app/core/langgraph/workflows/file_processing_workflow.py:87-94 | after validation the router goes to parse_file exactly when the state can be parsed, and ending instead changes nothing |
| FileWorkflow.ParseEnters | backend/app/core/langgraph/workflows/file_processing_workflow.py:96-105 | after parsing the router's choice of extract, store or end agrees with running the nodes straight on |
| FileWorkflow.ExtractEnters | backend/app/core/langgraph/workflows/file_processing_workflow.py:107-114 | after extraction the router's choice agrees with running the nodes straight on |
| FileWorkflow.StoreEnters | backend/app/core/langgraph/workflows/file_processing_workflow.py:116-123 | after storage the router's choice of finalize or end agrees with running the nodes straight on |
| FileWorkflow.RoutedIsStraight | backend/app/core/langgraph/workflows/file_processing_workflow.py:42-79 | from any node entered with the status it expects, the routed graph ends in the state the remaining nodes reach run one after another |
| FileWorkflow.GraphIsPipeline | backend/app/core/langgraph/workflows/file_processing_workflow.py:20-85 | the compiled graph computes validate, parse, extract and store in sequence |
| FileWorkflow.RunEnds | backend/app/core/langgraph/workflows/file_processing_workflow.py:87-123 | a run ends COMPLETED or FAILED, and its status never moves backwards |
| FileWorkflow.FinalStatus | backend/app/core/langgraph/workflows/file_processing_workflow.py:174-176 | process_file always reports COMPLETED or FAILED |
| FileWorkflow.UnsupportedFails | backend/app/core/langgraph/nodes/file_processing_nodes.py:35-46 | an unsupported name fails at validation with the unsupported-type message before any service runs: nothing parsed or stored, the size still recorded |
| FileWorkflow.SupportedOutcome | backend/app/core/langgraph/nodes/file_processing_nodes.py:53-175 | the run of a file of any supported type (process_file runs it with get_file_type's type) completes exactly when the bytes dispatch reached a parser that returned, a text was read, and the text is falsy or the store returned an id; stored exactly when an id came back |
| FileWorkflow.ParseWithoutBytesEntry | backend/app/core/langgraph/nodes/file_processing_nodes.py:70-88 | the parse node on a supported type other than PDF or PowerPoint ends FAILED with "File parsing failed: '<Parser>' object has no attribute 'parse_file_from_bytes'" and nothing else changed |
| FileWorkflow.BytesParserNeeded | backend/app/core/langgraph/nodes/file_processing_nodes.py:53-88 | a run on such a type ends FAILED with that message, supported, with nothing parsed, extracted or stored |
| FileWorkflow.SupportedNeedsBytesParser | backend/app/core/langgraph/workflows/file_processing_workflow.py:132-195 | process_file on a supported Word, Excel, CSV, text, RTF or ODT file always fails with the parsing message; only PDF and PowerPoint files can complete |
| FileWorkflow.NodeKeepsMessage | backend/app/core/langgraph/nodes/file_processing_nodes.py:43-175 | each node keeps the invariant: an error message exactly on failure, naming the node that failed |
| FileWorkflow.RunKeepsMessage | backend/app/core/langgraph/workflows/file_processing_workflow.py:42-79 | the invariant holds through the whole routed run |
| FileWorkflow.FailureNamesItsNode | backend/app/core/langgraph/workflows/file_processing_workflow.py:174-176 | process_file's answer carries an error message exactly when it failed, naming validation, parsing or storage |
| FileWorkflow.StoredTypeVersusBatch | backend/app/core/langgraph/nodes/file_processing_nodes.py:148-152 | the single-file store and the batch pipeline pick the same document type except for Word, Excel and PowerPoint files |
| UploadPipeline.PipelineFailsOnlyOnParse | backend/app/api/v1/file_processing.py:166-211 | a pipeline fails exactly when the router or parser raised, with "Failed to parse file: " and that message; property-step failures stay inside the result |
| UploadPipeline.AgentRunsOnlyWhenNeeded | backend/app/api/v1/file_processing.py:196-209 | the property agent runs only with the flag set, a non-empty parse result and a non-empty text; otherwise the outcome does not depend on it |
| UploadPipeline.UnsupportedRejected | backend/app/api/v1/file_processing.py:71-116 | an unsupported name is answered 400 with the unsupported-type message by both endpoints |
| UploadPipeline.UploadNeedsBytesParser | backend/app/api/v1/file_processing.py:213-241 | of the supported types only PDF and PowerPoint can be uploaded: every other type's bytes call raises AttributeError and the endpoint answers 500 |
| UploadPipeline.UploadSuccess | backend/app/api/v1/file_processing.py:213-258 | a successful upload reports the name, the type, the content size and the parse result, and only for PDF or PowerPoint |
| UploadPipeline.PathRequestParses | backend/app/api/v1/file_processing.py:54-93 | every supported type has a path parser, so a path request fails only when its parser raises |
| PdfParsing.TextPages | backend/app/services/pdf_parser.py:73-78 | the texts the path entry point collects: at most one per page, none empty |
| PdfParsing.TableRecords | backend/app/services/pdf_parser.py:81-90 | one record per table of a page, numbered from 1 in the library's order |
| PdfParsing.ProcessPage | backend/app/services/pdf_parser.py:63-95 | one page's record, and the unstripped text it adds exactly when the page has a non-empty text |
| PdfParsing.ParsePdf | backend/app/services/pdf_parser.py:19-121 | parse_file: a missing file or a library failure gives the failure record with its message; otherwise the path, base name, metadata, one record per page, the texts joined by blank lines and the summary counts |
| PdfParsing.CollectPages | backend/app/services/pdf_parser.py:60-95 | the page loop: one record per page numbered from 1, the collected texts, and their count |
| PdfParsing.TextPagesMembers | backend/app/services/pdf_parser.py:73-78 | a page's text is collected exactly when the library returned a non-empty text for it |
| PdfParsing.PageRecordLength | backend/app/services/pdf_parser.py:74-76 | a page record's length is that of the text before stripping, never less than the stripped text; a non-empty record text means the page had text |
| PdfParsing.JoinedLength | backend/app/services/pdf_parser.py:98-102 | the total text length is the pages' lengths plus two per separator |
| PdfParsing.PageTexts | backend/app/services/pdf_parser.py:168 | one text per page on the bytes entry point, "" for a page without one |
| PdfParsing.NonBlankPages | backend/app/services/pdf_parser.py:174-181 | the pages counted as having text are among the pages |
| PdfParsing.ParsePdfBytes | backend/app/services/pdf_parser.py:123-206 | parse_file_from_bytes: a library failure gives the failure record named after the file; otherwise the metadata with the content size, one record per page, each page's text followed by a newline, and the counts |
| PdfParsing.ReadPage | backend/app/services/pdf_parser.py:168-181 | one iteration of the bytes page loop: the page record, its text, and whether it is not whitespace only |
| PdfParsing.CollectPageTexts | backend/app/services/pdf_parser.py:166-181 | the bytes page loop: one record per page numbered from 1, every text newline-terminated, and the non-blank page count |
| PdfParsing.HasTextIffNotBlank | backend/app/services/pdf_parser.py:174 | a page has text on the bytes entry point exactly when its text is not whitespace only |
| PdfParsing.TerminatedLength | backend/app/services/pdf_parser.py:178-187 | the bytes text length is the pages' lengths plus one newline per page |
| PdfParsing.CountsAgree | backend/app/services/pdf_parser.py:73-181 | the two entry points' pages-with-text counts differ exactly by the pages whose text is non-empty whitespace |
| PowerPointParsing.ParagraphTexts | backend/app/services/powerpoint_parser.py:218-221 | one text per paragraph, the concatenation of its runs |
| PowerPointParsing.RowTexts | backend/app/services/powerpoint_parser.py:227-235 | one text per table row, its cells joined by " \| " |
| PowerPointParsing.AppendRuns | backend/app/services/powerpoint_parser.py:219-220 | the run loop appends every run's text, in order |
| PowerPointParsing.ExtractTextFromFrame | backend/app/services/powerpoint_parser.py:215-222 | _extract_text_from_frame computes the frame's text FrameText defines |
| PowerPointParsing.ExtractCellText | backend/app/services/powerpoint_parser.py:229-234 | a cell's text is the runs of all its paragraphs, stripped |
| PowerPointParsing.ExtractRowText | backend/app/services/powerpoint_parser.py:228-235 | a row's text is its stripped cell texts joined by " \| " |
| PowerPointParsing.ExtractTextFromTable | backend/app/services/powerpoint_parser.py:224-236 | _extract_text_from_table computes the table's text TableText defines |
| PowerPointParsing.FrameAsJoin | backend/app/services/powerpoint_parser.py:215-222 | a frame's text is its paragraphs joined by newlines and stripped |
| PowerPointParsing.TableAsJoin | backend/app/services/powerpoint_parser.py:224-236 | a table's text is its row texts joined by newlines and stripped |
| PowerPointParsing.ShapesOf | backend/app/services/powerpoint_parser.py:196-197 | one record per shape, in order |
| PowerPointParsing.ProcessShape | backend/app/services/powerpoint_parser.py:153-213 | _process_shape gives the record ShapeOf defines, by kind: frame text, OCR text, table text, group text or the shape's own text |
| PowerPointParsing.ProcessGroup | backend/app/services/powerpoint_parser.py:192-202 | a group's record holds its sub-shapes' texts and OCR texts, each non-empty one followed by a newline, stripped |
| PowerPointParsing.AddPiece | backend/app/services/powerpoint_parser.py:198-201 | one sub-shape adds its text and then its OCR text, each only when non-empty |
| PowerPointParsing.ProcessSlide | backend/app/services/powerpoint_parser.py:96-151 | _process_slide gives the record SlideOf defines |
| PowerPointParsing.RecordShape | backend/app/services/powerpoint_parser.py:122-146 | one shape record is filed under its kind, with its count and its text contribution |
| PowerPointParsing.AddShapesLists | backend/app/services/powerpoint_parser.py:122-146 | a slide's lists hold exactly the records of each kind, in order, and each count is its list's length |
| PowerPointParsing.AddShapeText | backend/app/services/powerpoint_parser.py:124-146 | one record adds its contribution, each string followed by a newline, to the slide text |
| PowerPointParsing.AddShapesText | backend/app/services/powerpoint_parser.py:122-146 | before stripping, the slide text is all the records' contributions, each followed by a newline |
| PowerPointParsing.AddShapesOcr | backend/app/services/powerpoint_parser.py:129-135 | a slide's OCR flag is set exactly when some image on it had OCR text |
| PowerPointParsing.OfKindCount | backend/app/services/powerpoint_parser.py:122-146 | the records filed under a kind are exactly those of that kind |
| PowerPointParsing.KindCountsSum | backend/app/services/powerpoint_parser.py:122-146 | every record has exactly one kind: the five counts add up to the number of shapes |
| PowerPointParsing.GroupRecordIgnored | backend/app/services/powerpoint_parser.py:122-146 | a group record changes nothing in the slide, wherever it stands |
| PowerPointParsing.GroupShapeIgnored | backend/app/services/powerpoint_parser.py:122-146 | a group shape contributes neither text nor a count to its slide |
| PowerPointParsing.ShapesOfAppend | backend/app/services/powerpoint_parser.py:122-123 | processing shapes distributes over concatenation |
| PowerPointParsing.SlideTexts | backend/app/services/powerpoint_parser.py:82 | one text per slide |
| PowerPointParsing.SlidesOf | backend/app/services/powerpoint_parser.py:71-73 | one record per slide |
| PowerPointParsing.SlidesOfIndex | backend/app/services/powerpoint_parser.py:71-72 | slide i's record is its processing numbered from 1 |
| PowerPointParsing.ParsePowerpoint | backend/app/services/powerpoint_parser.py:40-94 | parse_powerpoint: a load failure gives the failure record with its message; otherwise the path, base name, slide count, slide records, summary and stripped text |
| PowerPointParsing.CollectSlides | backend/app/services/powerpoint_parser.py:71-82 | the slide loop: the slide records, the summed counts, and every slide text newline-terminated |
| PowerPointParsing.SumSlidesSnoc | backend/app/services/powerpoint_parser.py:76-79 | one more slide adds its four counts to the summary |
| PowerPointParsing.ParsePowerpointFromBytes | backend/app/services/powerpoint_parser.py:305-329 | parse_powerpoint_from_bytes: parse_powerpoint on the temporary file, with the file name replaced by the upload's name on both outcomes |
| PowerPointParsing.ExtractedTextAsJoin | backend/app/services/powerpoint_parser.py:82-85 | the presentation text is the slide texts joined by newlines and stripped |
| PowerPointParsing.SummaryCountsTextBoxes | backend/app/services/powerpoint_parser.py:76 | the summary's text-box count is the number of text frames over all slides |
| PowerPointParsing.ValidateFile | backend/app/services/powerpoint_parser.py:335-357 | validate_file accepts exactly an existing file with a .pptx or .ppt suffix in any case that opens; a missing file is "File does not exist" |
| PowerPointParsing.ValidIsRoutedHere | backend/app/services/powerpoint_parser.py:348-349 | a file this parser accepts is one the router sends to PowerPoint |
| CsvParsing.StripCells | backend/app/services/csv_parser.py:84 | every cell of a row, stripped, in order |
| CsvParsing.CellHasContent | backend/app/services/csv_parser.py:83 | the any() scan finds exactly whether some stripped cell is non-empty |
| CsvParsing.TextLines | backend/app/services/csv_parser.py:74-84 | the text lines are the header lines followed by one line per row with content |
| CsvParsing.ContentLines | backend/app/services/csv_parser.py:82-84 | the row loop renders exactly the rows RowLines keeps |
| CsvParsing.ParseCsv | backend/app/services/csv_parser.py:18-111 | parse_file: a missing file or a read failure gives the failure record with its message; otherwise the headers, the rows, the text lines joined by newlines and the summary counts, reading with the sniffed delimiter or ',' |
| CsvParsing.ContentRowsRendered | backend/app/services/csv_parser.py:82-84 | every row with content is rendered |
| CsvParsing.RenderedLinesFromRows | backend/app/services/csv_parser.py:82-84 | every rendered line is the line of some row with content |
| CsvParsing.HasContentIffNotBlank | backend/app/services/csv_parser.py:83 | a row has content exactly when one of its cells is not all whitespace |
| CsvParsing.HeaderUnderline | backend/app/services/csv_parser.py:77-79 | with headers, the text opens with the headers joined by " \| " and a line of dashes of the same length |
| CsvParsing.NoContentNoText | backend/app/services/csv_parser.py:77-86 | without headers and with only blank rows the text is empty |
| CsvParsing.RowLinesCount | backend/app/services/csv_parser.py:82-84 | there are as many rendered lines as rows with content, never more than rows |
| CsvParsing.SupportedEndsWith | backend/app/services/csv_parser.py:117-120 | a supported path ends in .csv or .tsv, in any case |
| ExcelParsing.FilledCells | backend/app/services/excel_parser.py:97 | the stripped non-blank cells of a row, never more than the row has |
| ExcelParsing.CollectFilled | backend/app/services/excel_parser.py:97 | the comprehension keeps exactly the stripped non-blank cells, in order |
| ExcelParsing.RenderSheet | backend/app/services/excel_parser.py:93-97 | a worksheet's text lines are those SheetLines defines |
| ExcelParsing.ReadSheet | backend/app/services/excel_parser.py:67-109 | one sheet: its record, its text contribution, and its non-empty cell count, zero for an unreadable sheet |
| ExcelParsing.ReadSheets | backend/app/services/excel_parser.py:64-109 | the sheet loop: one record per sheet, the readable sheets' contributions, and the total cell count |
| ExcelParsing.ParseExcel | backend/app/services/excel_parser.py:19-135 | parse_file: a missing file or a load failure gives the failure record with its message; otherwise the sheet records, contributions joined by blank lines, and the counts |
| ExcelParsing.RenderedIffCounted | backend/app/services/excel_parser.py:96-103 | a row is rendered exactly when it has a cell the cell count counts |
| ExcelParsing.FilledCellsNonBlank | backend/app/services/excel_parser.py:97-103 | no rendered cell is blank |
| ExcelParsing.ContributionsCount | backend/app/services/excel_parser.py:100 | the number of text contributions is the number of readable sheets, never more than sheets |
| ExcelParsing.SheetCellsAppend | backend/app/services/excel_parser.py:103-104 | the cell total distributes over concatenating sheet lists |
| ExcelParsing.UnreadableSheetIgnored | backend/app/services/excel_parser.py:106-107 | an unreadable sheet adds neither text nor cells, wherever it stands |
| ExcelParsing.ContributionHeader | backend/app/services/excel_parser.py:100 | every readable sheet's text opens with its name in the worksheet header |
| DocParsing.Numbered | backend/app/services/doc_parser.py:73-79 | one record per kept paragraph |
| DocParsing.Texts | backend/app/services/doc_parser.py:80 | one text per paragraph record |
| DocParsing.CollectParagraphs | backend/app/services/doc_parser.py:71-80 | the paragraph loop: the records ParagraphRecords defines, their texts, and their count |
| DocParsing.StrippedRows | backend/app/services/doc_parser.py:94-98 | one stripped row per table row |
| DocParsing.TableRecords | backend/app/services/doc_parser.py:85-100 | one record per table |
| DocParsing.TableContributions | backend/app/services/doc_parser.py:104-105 | one text per table |
| DocParsing.StripRow | backend/app/services/doc_parser.py:96-97 | the cell loop strips every cell, in order |
| DocParsing.StripTable | backend/app/services/doc_parser.py:94-98 | the row loop gives every row's stripped cells |
| DocParsing.CollectTables | backend/app/services/doc_parser.py:85-105 | the table loop: the table records, their texts, and the table count |
| DocParsing.ParseDoc | backend/app/services/doc_parser.py:20-132 | parse_file: a missing file or a load failure gives the failure record with its message; otherwise the paragraph and table records, texts joined by blank lines, and the counts |
| DocParsing.ParagraphsClean | backend/app/services/doc_parser.py:72-77 | every paragraph record's text is stripped and non-empty, with its length recorded |
| DocParsing.NonBlankParagraphsKept | backend/app/services/doc_parser.py:71-80 | every non-blank paragraph is kept, stripped |
| DocParsing.KeptParagraphsNonBlank | backend/app/services/doc_parser.py:71-80 | every record comes from a non-blank paragraph and carries its style name, or "Normal" |
| DocParsing.KeptPosition | backend/app/services/doc_parser.py:71-80 | a non-blank paragraph has a place among the kept ones |
| DocParsing.KeptSource | backend/app/services/doc_parser.py:71-80 | each kept entry comes from a paragraph whose stripped text is non-empty |
| DocParsing.TablesNumbered | backend/app/services/doc_parser.py:85-105 | table records and table texts are numbered by position, from 1 |
| DocParsing.TableContributionShape | backend/app/services/doc_parser.py:104-105 | a table's text opens with its 1-based marker on a line of its own and ends with a newline |
| DocParsing.BlankDocumentNoText | backend/app/services/doc_parser.py:71-108 | a document with only blank paragraphs and no tables yields no records and no text |
| DocParsing.BlankParagraphsDropped | backend/app/services/doc_parser.py:71-72 | blank paragraphs are all dropped |
| OdtParsing.ExtractText | backend/app/services/odt_parser.py:161-173 | _extract_text_from_element computes NodesText: text nodes' data, nested elements recursively, concatenated |
| OdtParsing.TextIsLeaves | backend/app/services/odt_parser.py:161-173 | an element's text is the concatenation of the text nodes beneath it, in document order |
| OdtParsing.NodesTextAppend | backend/app/services/odt_parser.py:165-173 | the text of consecutive node lists is the text of each, concatenated |
| OdtParsing.ElementTransparent | backend/app/services/odt_parser.py:169-171 | wrapping nodes in an element leaves the text unchanged |
| OdtParsing.NumberedFrom | backend/app/services/odt_parser.py:74-97 | one record per kept text, numbered on from where the previous loop stopped |
| OdtParsing.Marked | backend/app/services/odt_parser.py:84-98 | one all_text entry per kept text |
| OdtParsing.CollectElements | backend/app/services/odt_parser.py:74-98 | one element loop: numbered records of the non-blank stripped texts, and those texts behind the loop's marker ("" or "# ") |
| OdtParsing.RowData | backend/app/services/odt_parser.py:117-119 | one stripped text per cell |
| OdtParsing.TableRows | backend/app/services/odt_parser.py:112-122 | one data row per table row, blank or not |
| OdtParsing.TableRecords | backend/app/services/odt_parser.py:102-127 | one record per table |
| OdtParsing.ReadRow | backend/app/services/odt_parser.py:117-120 | the cell loop strips every cell, in order |
| OdtParsing.ReadStripped | backend/app/services/odt_parser.py:75-76 | an element's text, stripped |
| OdtParsing.ReadTable | backend/app/services/odt_parser.py:108-126 | the row loop: every row's stripped cells, and the lines of rows with content joined by newlines |
| OdtParsing.CollectTables | backend/app/services/odt_parser.py:100-130 | the table loop: one record per table, a text entry per table with text, and the table count |
| OdtParsing.ParseOdt | backend/app/services/odt_parser.py:19-159 | parse_file: a missing file or a load failure gives the failure record with its message; otherwise paragraphs then headings numbered on, the tables, texts joined by blank lines, and the counts |
| OdtParsing.HeadingsFollowParagraphs | backend/app/services/odt_parser.py:74-98 | the records are the kept paragraphs then the kept headings, numbered 1, 2, … across both, kind "heading" exactly for the later ones |
| OdtParsing.KeptClean | backend/app/services/odt_parser.py:76-84 | every kept text is stripped and non-empty |
| OdtParsing.NonBlankKept | backend/app/services/odt_parser.py:74-84 | a text is kept exactly when it is the stripped text of a non-blank element |
| OdtParsing.TablesNumbered | backend/app/services/odt_parser.py:102-127 | every table gets a record, numbered by position from 1, holding every one of its rows |
| OdtParsing.TableRowsAt | backend/app/services/odt_parser.py:112-122 | row i of the table data is row i of the table with its cells stripped |
| OdtParsing.RowDataAt | backend/app/services/odt_parser.py:117-119 | cell j of a row's data is the stripped text of cell j |
| OdtParsing.TableContentIffRow | backend/app/services/odt_parser.py:123-129 | a table has text exactly when one of its rows has a non-blank cell |
| OdtParsing.LinesIffContentRow | backend/app/services/odt_parser.py:123-124 | a table has a line exactly when one of its rows has a non-blank cell |
| OdtParsing.LinesNonEmpty | backend/app/services/odt_parser.py:123-124 | no line of a table is empty |
| OdtParsing.TableTextsCount | backend/app/services/odt_parser.py:129-130 | the tables add one text per table with text, never more than there are tables |
| RtfParsing.DropLetters | backend/app/services/rtf_parser.py:93 | the control-word pattern's [a-z]+ consumes a maximal run of lower-case letters: a suffix of the input not starting with one |
| RtfParsing.DropDigits | backend/app/services/rtf_parser.py:93 | the pattern's \d* consumes a maximal run of digits |
| RtfParsing.DropOneSpace | backend/app/services/rtf_parser.py:93 | the pattern's \s? consumes at most one whitespace character |
| RtfParsing.RemoveBraces | backend/app/services/rtf_parser.py:96 | no brace remains |
| RtfParsing.KeepPrintable | backend/app/services/rtf_parser.py:99 | only printable ASCII, newline, carriage return and tab remain |
| RtfParsing.DropSpaces | backend/app/services/rtf_parser.py:102 | \s+ consumes a maximal run of whitespace |
| RtfParsing.CollapseAlphabet | backend/app/services/rtf_parser.py:102 | after collapsing whitespace every character is a space or printable non-whitespace |
| RtfParsing.CollapseSpacing | backend/app/services/rtf_parser.py:102 | the collapsed text has no two whitespace characters in a row, and starts with whitespace exactly when the input does |
| RtfParsing.SpaceRun | backend/app/services/rtf_parser.py:102-103 | the whitespace run starting at a position lies within the text |
| RtfParsing.LastNewline | backend/app/services/rtf_parser.py:103 | the last newline in a range, or -1 when there is none |
| RtfParsing.BlankLinesNoNewline | backend/app/services/rtf_parser.py:103 | the blank-line substitution changes nothing in a text without newlines |
| RtfParsing.ExtractPrintable | backend/app/services/rtf_parser.py:85-105 | whatever the input, _simple_rtf_extract's output has no brace and only printable ASCII |
| RtfParsing.ExtractSpacing | backend/app/services/rtf_parser.py:85-105 | the output never holds two whitespace characters in a row, nor begins or ends with one |
| RtfParsing.CollapsedText | backend/app/services/rtf_parser.py:93-102 | before the last two steps the text has single spaces and no newline, so the blank-line substitution does nothing |
| RtfParsing.StripSlice | backend/app/services/rtf_parser.py:105 | strip keeps a contiguous part of its input |
| RtfParsing.ExtractCleanIdentity | backend/app/services/rtf_parser.py:85-105 | on text with no backslash or brace, only printable ASCII, no double space and no outer space, the fallback is the identity |
| RtfParsing.ParseRtf | backend/app/services/rtf_parser.py:17-83 | parse_file: an error exactly when the file is missing or unreadable; otherwise the converter's stripped text, or the fallback's when the converter raised |
| RtfParsing.ParseRtfLengths | backend/app/services/rtf_parser.py:52-66 | the recorded length is that of the text before stripping, never less than the stripped text |
| Screening.OthersFacts | backend/app/services/memory_screening_service.py:325-328 | the hits other than the main document are exactly those with another id, in order, and all of them when none has its id |
| Screening.RelatedFacts | backend/app/services/memory_screening_service.py:301-333 | _get_related_documents: at most `limit` documents, never the main one, all from the search answer, [] when the search raised, and the first `limit` hits when the main document is not among them |
| Screening.SourcesUsed | backend/app/services/memory_screening_service.py:48-84 | a missing document fails; otherwise sources_used is one plus the related documents, at most four, and one without context or when the search raised |
| Screening.AppendRelated | backend/app/services/memory_screening_service.py:66-70 | the loop appends one "(related)" text input per related document, in order |
| Screening.RelatedDocuments | backend/app/services/memory_screening_service.py:301-333 | the related documents of the memory's search answer, at most `limit`, none the main one |
| Screening.ScreenPropertyFromMemory | backend/app/services/memory_screening_service.py:33-90 | screen_property_from_memory fails exactly when no stored chunk carries the id; a screened document reports no property data, since get_document_by_id never attaches it |
| Screening.HitIds | backend/app/services/memory_screening_service.py:135 | one id per search hit, in order |
| Screening.SearchScreening | backend/app/services/memory_screening_service.py:110-154 | a search screening fails when the search raised or found nothing, with the query in the message; otherwise every hit is used and document_ids lists their ids in search order |
| Screening.CollectSearchInputs | backend/app/services/memory_screening_service.py:127-135 | the loop builds one text input per hit and the hits' ids side by side |
| Screening.ScreenPropertiesBySearch | backend/app/services/memory_screening_service.py:92-154 | screen_properties_by_search on the memory's search answer, which raises exactly when the search does and holds at most `limit` hits |
| Screening.WithPropertyDataFacts | backend/app/services/memory_screening_service.py:182-186 | the filter keeps exactly the documents with property data, and nothing when none has any |
| Screening.LimitedLargest | backend/app/services/memory_screening_service.py:196-199 | at most ten documents remain, all from the input; ten or fewer stay as they are; of more, the kept ones are in descending file_size and none is smaller than a dropped one |
| Screening.TruncatedShape | backend/app/services/memory_screening_service.py:207-209 | a truncated text keeps the content's first 2000 characters and is at most 2015 long; it is the content itself exactly when that is short enough or already ends in the mark |
| Screening.DocumentIds | backend/app/services/memory_screening_service.py:217 | one id per document, in order |
| Screening.ScreenAllFacts | backend/app/services/memory_screening_service.py:169-229 | screening everything fails on an empty memory, and on one without property data when only such documents are wanted; otherwise it uses one to ten documents and names each |
| Screening.PrepareInputs | backend/app/services/memory_screening_service.py:202-217 | the loop builds the truncated text inputs and the ids side by side |
| Screening.ScreenAllProperties | backend/app/services/memory_screening_service.py:156-235 | screen_all_properties fails with "No documents found in memory" exactly for an empty store, and always fails when only property-data documents are wanted, since the listing never attaches property data |
| Screening.ContextFacts | backend/app/services/memory_screening_service.py:237-299 | the context lists at most `radius` related documents, none the main one; a missing document or a raised search fails the call |
| Screening.GetScreeningContext | backend/app/services/memory_screening_service.py:237-299 | get_screening_context over the memory fails for a missing id, and its main document never shows property data |
| PropertyExtraction.PropertyTypeLookup | backend/app/services/property_extraction_agent.py:25-31 | looking a property type up by its value finds it, and finds nothing for another text |
| PropertyExtraction.LeaseTypeLookup | backend/app/services/property_extraction_agent.py:33-37 | the same for lease types |
| PropertyExtraction.IndexationTypeLookup | backend/app/services/property_extraction_agent.py:39-43 | the same for indexation types |
| PropertyExtraction.TenantGradeLookup | backend/app/services/property_extraction_agent.py:45-51 | the same for tenant grades |
| PropertyExtraction.CleanFields | backend/app/services/property_extraction_agent.py:190-232 | one field loop adds exactly the entries Collected defines for its kind |
| PropertyExtraction.CleanFeatures | backend/app/services/property_extraction_agent.py:241 | the comprehension gives FeatureList of the items |
| PropertyExtraction.CleanExtractedData | backend/app/services/property_extraction_agent.py:179-243 | _clean_extracted_data computes Cleaned: the three field loops, then the flag, then the feature list |
| PropertyExtraction.FieldListsDisjoint | backend/app/services/property_extraction_agent.py:185-241 | no field belongs to two of the lists, so the loops never overwrite each other |
| PropertyExtraction.CleanedByKey | backend/app/services/property_extraction_agent.py:179-243 | every output key holds what its own step computes from the input's value under that key |
| PropertyExtraction.OutputKeysListed | backend/app/services/property_extraction_agent.py:179-243 | only listed fields come out; every other key of the model's answer is dropped |
| PropertyExtraction.StringFieldKept | backend/app/services/property_extraction_agent.py:190-192 | a string field comes out exactly when present and truthy, as its stripped str() |
| PropertyExtraction.EnumFieldResult | backend/app/services/property_extraction_agent.py:220-232 | an enum field holds what the enum loop computes for it |
| PropertyExtraction.EnumDefaults | backend/app/services/property_extraction_agent.py:222-232 | a valid value is kept; an invalid one becomes logistics, triple_net or cpi |
| PropertyExtraction.EnumTextNoUpper | backend/app/services/property_extraction_agent.py:222 | the enum text is lower case |
| PropertyExtraction.LowerGrade | backend/app/services/property_extraction_agent.py:45-51 | the only tenant grade a lower-case text can name is "unrated" |
| PropertyExtraction.TenantGradeOnlyUnrated | backend/app/services/property_extraction_agent.py:220-232 | tenant_grade comes out only as "unrated", exactly for an input that lower-cases to it; every letter grade is dropped |
| PropertyExtraction.CarryForwardRule | backend/app/services/property_extraction_agent.py:235-237 | indexation_carry_forward comes out exactly when present, true exactly for "true", "1", "yes" or "on" in any case |
| PropertyExtraction.FeatureListShape | backend/app/services/property_extraction_agent.py:240-241 | the feature list keeps at most one entry per item, each a stripped string |
| PropertyExtraction.BlankFeature | backend/app/services/property_extraction_agent.py:241 | falsy items are dropped before stripping, so a whitespace-only item comes out as "" |
| PropertyExtraction.RawTextShape | backend/app/services/property_extraction_agent.py:176 | the raw text is at most 503 characters, the text itself up to 500, and starts with its first 500 |
| PropertyExtraction.ExtractionError | backend/app/services/property_extraction_agent.py:173-177 | when the model chain raises, the answer is the error dict with its message and the raw text |
| PropertyExtraction.ExtractPropertyData | backend/app/services/property_extraction_agent.py:154-177 | extract_property_data computes Extraction: the cleaned answer, or the error dict |
| ChatAgent.ContainsAnyIff | backend/app/api/v1/ai_agent.py:103-105 | the pattern scan finds a match exactly when some pattern occurs in the text |
| ChatAgent.SimpleQueryIff | backend/app/api/v1/ai_agent.py:91-111 | a query is simple exactly when one of the fourteen patterns occurs in its lower-cased, stripped form as a plain substring, or it is shorter than twenty characters once stripped |
| ChatAgent.InsideAWord | backend/app/api/v1/ai_agent.py:103-105 | a pattern inside a longer word is enough: a message containing "which" is simple, because it contains "hi" |
| ChatAgent.DispatchPrecedence | backend/app/api/v1/ai_agent.py:257-277 | chat_with_agent picks @screener over @memory over @help over @stats, anywhere in the lower-cased message, and regular chat exactly when none occurs |
| ChatAgent.TablePrecedence | backend/app/api/v1/ai_agent.py:260-277 | the first tag of the command table found in the text decides the command |
| ChatAgent.TagSurvivesLower | backend/app/api/v1/ai_agent.py:362-364 | an exact-case "@memory" is also found in the lower-cased message |
| ChatAgent.MemoryQueryFacts | backend/app/api/v1/ai_agent.py:361-370 | the query is the stripped text after the first exact-case "@memory"; a tag present only in another case gives the default query "real estate investment" |
| ChatAgent.PreviewShape | backend/app/api/v1/ai_agent.py:382 | a preview is at most 203 characters, starts like the content, and is the content itself up to 200 |
| ChatAgent.ResultEntriesPrefix | backend/app/api/v1/ai_agent.py:380-385 | the entries of the first hits are a prefix of the entries of all of them |
| ChatAgent.MemoryResponseFacts | backend/app/api/v1/ai_agent.py:373-393 | the memory answer is a memory_search response with the query and hit count as context, opening with the heading and, with hits, with the first hit's numbered entry |
| ChatAgent.BuildMemoryText | backend/app/api/v1/ai_agent.py:378-385 | the response loop writes the heading and one entry per hit, numbered from 1 |
| ChatAgent.StatsAlwaysErrors | backend/app/api/v1/ai_agent.py:436-476 | handle_stats_command always answers with the stats error: the statistics' own error, or else the NameError of the undefined all_docs |
| ChatAgent.CachedNeverHasPropertyData | backend/app/api/v1/ai_agent.py:62-74 | get_all_documents attaches no property data, so no cached entry claims any |
| ChatAgent.DocumentCache.constructor | backend/app/api/v1/ai_agent.py:41-45 | the cache starts with no metadata and no update time |
| ChatAgent.DocumentCache.GetCached | backend/app/api/v1/ai_agent.py:47-84 | a fresh cache answers its metadata unchanged; otherwise a successful fetch stores and answers the projection, fresh for the next 300 seconds, and a failed fetch answers the old metadata or [] |
| ChatAgent.DocumentCache.Invalidate | backend/app/api/v1/ai_agent.py:86-89 | both fields are cleared, so the cache is stale at every time |
| ChatAgent.Project | backend/app/api/v1/ai_agent.py:65-74 | the loop projects every document onto its metadata entry, in order |
| ChatAgent.HandleStats | backend/app/api/v1/ai_agent.py:436-476 | the handler consults the cache and answers StatsResponse |
| ChatAgent.FallbackAppend | backend/app/api/v1/ai_agent.py:204-222 | the fallback keeps the order of the cached entries |
| ChatAgent.FallbackOnlyMatching | backend/app/api/v1/ai_agent.py:204-222 | at most one answer per cached entry, each from an entry whose filename and the query share a keyword group |
| ChatAgent.FallbackNeedsKeyword | backend/app/api/v1/ai_agent.py:209-216 | a query with no keyword of either group finds nothing |
| ChatAgent.FallbackDocumentSearch | backend/app/api/v1/ai_agent.py:199-224 | the loop of fallback_document_search computes Fallback |
| Compliance.ExactFinds | backend/app/services/compliance_service.py:90-91 | on a table without repeated keys, a key looks up its own value |
| Compliance.ExactMisses | backend/app/services/compliance_service.py:90 | the exact lookup fails exactly when no key equals the name |
| Compliance.StandardKeysDistinct | backend/app/services/compliance_service.py:74-88 | the standards table lists no key twice |
| Compliance.ExactKeyWins | backend/app/services/compliance_service.py:90-91 | every key of the table resolves to its own full name |
| Compliance.FirstPartialIsFirst | backend/app/services/compliance_service.py:94-96 | the partial search answers the first entry whose key contains, or is contained in, the name ignoring case, and nothing when none does |
| Compliance.FullNameOfOther | backend/app/services/compliance_service.py:93-99 | a name that is no key resolves to the first partial match, and otherwise to its formatted form, as long as the name and without underscores or dots |
| Compliance.FormattedShape | backend/app/services/compliance_service.py:99 | formatting keeps the length and leaves no underscore or dot |
| Compliance.EmptyNameIsFirstStandard | backend/app/services/compliance_service.py:94-96 | the empty name is contained in every key, so it resolves to ISO/IEC 27001 |
| Compliance.EmptyResolvesToFirst | backend/app/services/compliance_service.py:90-96 | on a table with non-empty keys the empty name resolves to the first entry |
| Compliance.StandardTypeValidation | backend/app/services/compliance_service.py:112-117 | only "government" and "industry" are accepted, each with its own directory |
| Compliance.RemovePdf | backend/app/services/compliance_service.py:120 | a name without ".pdf" in it is unchanged, and with the extension appended loses exactly it |
| Compliance.WithOrWithoutExtension | backend/app/services/compliance_service.py:119-121 | a name given with or without its extension finds the same document |
| Compliance.DocumentLookupOutcome | backend/app/services/compliance_service.py:101-136 | an unknown type raises ValueError whatever the name; a found document reports the name without ".pdf", its full name, its path and size |
| Tooling.FormatNamesRoundTrip | backend/tooling.py:886-889 | the hint names accepted by _detect_format are exactly the six formats' own names, and each format's name is accepted as that format |
| Tooling.HintPrecedence | backend/tooling.py:886-889 | a non-empty hint that names a format once lower-cased and stripped decides the answer; any other hint changes nothing, as if no hint had been given |
| Tooling.ContentTypeBeforeUrl | backend/tooling.py:892-917 | without a valid hint, a recognised Content-Type decides the format whatever the URL says |
| Tooling.ContentTypeOrder | backend/tooling.py:892-902 | the Content-Type tests run json, csv, xml, excel in that order: an xml type without json or csv is xml even when it is a spreadsheet type, and xls is reported only for an excel type without "sheet" |
| Tooling.DetectFormatEvidence | backend/tooling.py:873-920 | every detected format is backed by evidence: a hint naming it, its marker in the Content-Type, or its extension at the end of the lower-cased URL; txt is also the default |
| Tooling.LowerHost | backend/tooling.py:731-737 | the hostname of a split URL is absent for an empty host and otherwise non-empty |
| Tooling.CheckUrl | backend/tooling.py:1042-1067 | a URL passes only when the argument is a non-empty string whose stripped form splits into a non-empty scheme and netloc, and then the stripped string is what goes on |
| Tooling.HostVerdict | backend/tooling.py:1070-1085 | the host check lets a URL through exactly when there is no hostname or the private-address test answers no; the URL goes on unchanged, and a refusal is either the private-address error or the int() failure |
| Tooling.DecimalRoundTrip | backend/tooling.py:737 | reading a decimal rendering back with int() gives the number it renders |
| Tooling.DottedQuadPrivate | backend/tooling.py:731-737 | on a dotted-quad host the prefix tests are exactly the numeric ranges loopback 127/8, 10/8, 192.168/16, 0.0.0.0, link-local 169.254/16 and 172.16/12, and never make int() fail |
| Tooling.PrivateHostFailure | backend/tooling.py:737-755 | the private-address test fails exactly for a host starting "172." whose second label is not a number, with int()'s ValueError text |
| Tooling.SplitWebUrl | backend/tooling.py:719-728 | an http or https URL with a plain host and path splits into that scheme and that host as netloc |
| Tooling.WebUrlVerdict | backend/tooling.py:704-745 | for an http(s) URL with a plain host, the whole URL check is decided by the host check alone |
| Tooling.IPv4UrlVerdict | backend/tooling.py:704-745 | an http(s) URL to an IPv4 address is refused as private exactly when the address lies in a private or local range, and otherwise goes ahead unchanged |
| Tooling.HostIgnoresUserAndPort | backend/tooling.py:731-734 | user information before the last '@' and a numeric port after the host do not change the hostname that is checked |
| Tooling.BlankUrlMissingPart | backend/tooling.py:1042-1067 | a non-empty blank string passes the emptiness test but is refused for missing its scheme and netloc |
| Tooling.NoSchemeMissingPart | backend/tooling.py:1057-1067 | a string without ':' or brackets, such as a bare host and path, has no scheme and is refused |
| Tooling.EntryPointsAgree | backend/tooling.py:704-745 | fetch_resource_data and validate_resource_url let the same arguments through, with the same stripped URL |
| Tooling.AppendItems | backend/tooling.py:1411-1428 | the tags or groups loop appends, in order, one quoted part per item the loop writes |
| Tooling.AppendExtras | backend/tooling.py:1448-1452 | the extras loop appends one part per entry with a non-empty key and a truthy value |
| Tooling.AppendCriterion | backend/tooling.py:1362-1452 | one clause of build_search_query appends its parts, or raises when its stripped value is present and not a string |
| Tooling.AppendAll | backend/tooling.py:1362-1452 | the clauses run one after the other and the first raise ends the function |
| Tooling.BuildSearchQuery | backend/tooling.py:1307-1463 | build_search_query gives "*" when no part is written and otherwise the parts joined with " AND ", or the AttributeError of a clause |
| Tooling.ErrorStays | backend/tooling.py:1362-1452 | once a clause has raised, later clauses do not change the outcome |
| Tooling.QueryPartsAppend | backend/tooling.py:1362-1455 | the parts of a list of clauses are those of its first clauses followed by those of the rest |
| Tooling.QueryRaisesIff | backend/tooling.py:1362-1408 | build_search_query raises exactly when one of its stripped clauses meets a present value that is not a string |
| Tooling.QueryRaisesFirst | backend/tooling.py:1362-1408 | the raise is the AttributeError of the first clause that meets a non-string value |
| Tooling.NoCriteriaNoParts | backend/tooling.py:1362-1452 | an empty criteria dict writes no part in any clause |
| Tooling.NoCriteriaWildcard | backend/tooling.py:1455-1458 | without criteria the query is "*" |
| Tooling.WildcardIff | backend/tooling.py:1455-1463 | the query is "*" exactly when no part is written or the only part is the keywords "*" |
| Tooling.SingleItemIsList | backend/tooling.py:1411-1428 | a single tag or group string is treated as the one-element list holding it; a blank one is written stripped to nothing, because the emptiness test comes before the strip |
| Tooling.ItemPartsWritten | backend/tooling.py:1411-1428 | the tags or groups parts are one quoted, stripped part per non-empty string item, in order, and no others |
| Tooling.WrittenItems | backend/tooling.py:1413-1418 | the items the loop writes are non-empty strings |
| Tooling.KeywordsFirst | backend/tooling.py:1362-1370 | non-blank keywords are the first part of the query, stripped but otherwise as given |
| Tooling.KeywordsAlone | backend/tooling.py:1362-1370 | the keywords clause alone writes exactly the stripped keywords |
| Tooling.FormatOf | backend/tooling.py:1260 | a resource's format is "UNKNOWN" or the upper-cased form of a non-empty string format |
| Tooling.ProcessResources | backend/tooling.py:1251-1280 | the resource loop of get_package_resources builds the processed list of the raw items, in order, or raises as the loop would |
| Tooling.SelectedKeepsWebUrls | backend/tooling.py:1251-1280 | the processed list keeps only dict items whose URL starts with http:// or https://, each built from some raw item, and no more of them than there are raw items |
| Tooling.NonDictSkipped | backend/tooling.py:1252-1253 | a raw item that is not a dict is skipped without effect |
| Tooling.WellFormedNeverRaises | backend/tooling.py:1251-1280 | items whose format and URL are strings or falsy never make the loop raise |
| Tooling.KnownFormatsMeaning | backend/tooling.py:1296-1304 | formats_available holds exactly the formats of the kept resources other than "UNKNOWN" |
| Tooling.ListingCounts | backend/tooling.py:1161-1304 | a successful listing counts its kept resources, which are no more than the raw ones and all have an http(s) URL, and offers exactly their known formats |
| Tooling.SizeConversion | backend/tooling.py:1271-1276 | a numeric size string becomes the number, and any other string is kept as it is |
| Tooling.AttribValue | backend/tooling.py:984-985 | the attributes become a dict with one entry per attribute |
| Tooling.XmlDict | backend/tooling.py:971-1006 | _xml_to_dict gives a string, None or a dict |
| Tooling.XmlToDict | backend/tooling.py:971-1006 | the recursive conversion of an element computes the specification of _xml_to_dict |
| Tooling.ConvertChildren | backend/tooling.py:995-1004 | the loop over the children starts from the attributes and text and adds every child under its tag |
| Tooling.ConvertChild | backend/tooling.py:996-1004 | one pass of the loop stores the converted child under its tag |
| Tooling.StoreChild | backend/tooling.py:998-1004 | a first value is stored as it is, a second one turns the entry into a list of both, and later ones are appended |
| Tooling.LeafIsText | backend/tooling.py:988-990 | a leaf with non-blank text becomes that text stripped, and its attributes are dropped |
| Tooling.EmptyIsRawText | backend/tooling.py:1006 | an element with no attributes, no children and blank or no text gives back its raw text |
| Tooling.TaggedData | backend/tooling.py:995-1004 | no converted child is itself a list |
| Tooling.ChildrenGrouped | backend/tooling.py:995-1004 | children sharing a tag are grouped: one child's data is stored as it is, two or more as the list of their data in document order |
| Tooling.XmlChildrenGrouped | backend/tooling.py:971-1006 | in the converted dict of an element, each child tag other than "@attributes" and "@text" holds the grouped data of the children with that tag |
| AgentTooling.FileCounter.constructor | backend/agent/tooling.py:35 | the module-wide file counter starts at 0 |
| AgentTooling.FileCounter.SaveToFile | backend/agent/tooling.py:38-74 | save_to_file advances the module-wide counter exactly when no file name is given, saves under the given or default name with ".json" added when missing inside the files directory, and returns the data updated with what the save reported |
| AgentTooling.UpdateCopy | backend/agent/tooling.py:71-72 | the copy of the data is updated entry by entry with the save report |
| AgentTooling.JsonSuffixAdded | backend/agent/tooling.py:61-62 | every saved name ends in ".json" ignoring case and starts with the name it was given; adding the suffix twice is adding it once, and a name is kept as it is exactly when it already ends in ".json" ignoring case |
| AgentTooling.DefaultNameKept | backend/agent/tooling.py:55-62 | a default name already ends in ".json" and is used unchanged |
| AgentTooling.PaddedCounter | backend/agent/tooling.py:58 | the zero-padded counter in a default name reads back as the counter |
| AgentTooling.DefaultNamesDistinct | backend/agent/tooling.py:55-58 | default names for the same function and timestamp differ whenever the counter values differ |
| AgentTooling.RelativeNameInDirectory | backend/agent/tooling.py:65 | a name that is not an absolute path is saved inside the AI_FILES directory |
| AgentTooling.UpdateGet | backend/agent/tooling.py:71-72 | after the update each key of the report has the report's value and every other key keeps the value it had in the data |
| AgentTooling.UpdateKeepsKeys | backend/agent/tooling.py:71-74 | what save_to_file returns keeps every key of the data and adds every key of the report |
| AgentTooling.PrepareAll | backend/agent/tooling.py:173-175 | a prepared list or tuple has one item per original item |
| AgentTooling.PrepareEntries | backend/agent/tooling.py:170-172 | a prepared dict has the original's keys, in order |
| AgentTooling.PreparedIsReady | backend/agent/tooling.py:140-191 | whatever is prepared comes out with no tuple, datetime or other object left anywhere in it |
| AgentTooling.ReadyIsUnchanged | backend/agent/tooling.py:170-191 | a value the JSON encoder already takes is returned unchanged |
| AgentTooling.PrepareIdempotent | backend/agent/tooling.py:140-191 | preparing twice gives what preparing once gives |
| AgentTooling.PrepareKeepsKeys | backend/agent/tooling.py:170-172 | a prepared dict is a dict with the keys of the original in the same order |

## Left out

- Network traffic in both tooling files is not modelled. This covers `search_packages`, `get_package_details`, `list_groups`, `list_tags`, the download and HEAD requests of `fetch_resource_data` and `validate_resource_url`, `get_catalog_info`, the synchronous wrappers and the tool wrappers. Only the checks made before the first request, and the processing of a package's resource list, are modelled.
- `_save_to_json` and its file write, and `_parse_resource_data` (pandas and JSON parsing of downloaded bytes), are library and file I/O. The save's report is a parameter of `AgentTooling.FileCounter.SaveToFile`.
- `_prepare_for_json_serialization`'s pandas DataFrame and Series cases are left out, since those objects come from pandas.
- Vector similarity ranking and embeddings are library behaviour. A store query promises only the number of matching chunks it returns, and that they are chunks of the store that match the filter.
- The text splitter is an opaque function of the index, required only to split "" into no pieces. Chunk boundaries and overlap are not modelled.
- Every language-model call is a parameter or left out: screening summaries, regular chat, the property extraction chain and the screener command. Only the deterministic code around those calls is modelled.
- The document loaders (pdfplumber, python-docx, openpyxl and pandas, odfpy, python-pptx, striprtf), OCR and image preprocessing are reduced to what they hand back. A shape's own exceptions inside the PowerPoint parser are not modelled, and neither are the plain-text parser and its encoding detection.
- Wall-clock time, durations, processing times, rates, percentages, parallel efficiency, `round()` and the finalize nodes' timestamps are left out, because they are floats over the clock. Where order matters (the age filter and the cache lifetime), times are natural numbers given as parameters.
- `float()` on extracted numeric fields is the parameter `toFloat`, so the numeric fields' values are not modelled. Python's `int()` is modelled for ASCII digits with surrounding whitespace and a sign; underscores and non-ASCII digits are not.
- Case mapping (`lower`, `upper`, `title`) is ASCII only: letters outside ASCII are left as they are.
- RtfParsing.DropDigits: `\d` in a str pattern matches every Unicode decimal digit, but the model's digits are ASCII only.
- repr of a datetime shows its isoformat inside `datetime.datetime(...)` rather than its fields, and non-ASCII characters that repr escapes are kept as they are.
- PropertyExtraction.Extraction: the chain's answer is taken to be a dict. A JSON list or scalar, on which `_clean_extracted_data` raises inside the same handler and gives the error dict, is not modelled.
- `urlsplit` is modelled for what the checks read: the scheme, the netloc, the hostname (after the last '@', before a port or inside brackets) and the bracket ValueError. Its other fields and its IPv6 validation are not modelled.
- `pathlib` is modelled for POSIX paths: the final component and its suffix. `Path.exists()` on the path endpoint is a parameter.
- Compliance.DocumentByFilename: the document path is joined by string concatenation. pathlib's `/` would drop the base for an absolute name and normalise "//" and "./"; that is not modelled. `AgentTooling.FilePath` keeps an absolute name, but does not normalise either.
- uuid4 document and task ids are parameters that the caller promises are fresh.
- A failing store delete is the `faults` parameter: the set of document ids whose delete raises. For `clear_all_documents` it is the `deleteError` parameter, the text of the exception the one bulk delete raises.
- Memory.DocumentMemory.DeleteDocumentsByFilter: the metadata cache is a Dafny `map`, which has no insertion order. The ids it reports are all the selected ids, each exactly once, but not in dict order. Statistics built by iterating the cache are stated as counts for the same reason.
- Memory.DocumentMemory.GetAllDocuments: the documents come in the order of an enumeration of the stored id set. Python's set iteration order is not modelled.
- Tooling.KnownFormats: `formats_available` is stated as a set, not as the order Python's set gives when it becomes a list.
- The directory listing and `stat` calls of `compliance_service.py` (`get_standard_documents` and the file timestamps) are file-system I/O. Which files exist, and their sizes, is a parameter of `Compliance.DocumentByFilename`.
- The outermost `except Exception` handlers that only wrap an unexpected error into an error response are modelled where they catch a modelled error. Errors that only a library or the runtime could raise there are not modelled.
- Shallow copies are modelled as values, so aliasing between a result dict and its input is not modelled.
- The route and application shells, the demo and test scripts, and the state-type modules hold no logic beyond the records that the model reuses.
