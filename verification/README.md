# Personal workspace: verified model of the store and its screens

This project models the core of a single-page personal-workspace app. The app
keeps todos, documents in folders, notes and bookmarked websites for each
signed-in user, all in the browser's key-value storage.

The model has two layers:

- **The record store** (`StorageService`, in `storage.dfy`). It covers:
  - the session: login, register, logout and the restored current user;
  - the per-user namespacing of every collection: `<id or 'guest'>_<kind>`;
  - add, update and delete for todos, documents, folders, notes and websites;
  - the category queries;
  - the document/folder coordination: shallow folder delete, moving a document, documents of a folder;
  - the two-pass folder-forest builder (`folder_tree.dfy`).

  The storage substrate is one field for the account list, one for the
  persisted session, and one map from key to `Slot` per record kind (todos,
  documents, folders, notes, websites). A `Slot` is absent, a parsed payload,
  or a payload that does not parse (which the store reads as an empty
  collection).
- **The screens' logic**:
  - website navigation (`website_navigation.dfy`): drag-and-drop reordering with position renumbering and per-site persistence, the category filter, the add/edit/delete handlers and URL normalisation;
  - the document manager (`document_manager.dfy`): file classification by extension, the upload record, the search filter and folder creation;
  - the document reader (`document_reader.dfy`): zoom, the load check, content types and the view dispatch;
  - notes (`notes.dfy`): tag parsing and joining, and the category filter.

Shared pieces:
- `collections.dfy`: `filter`, `findIndex`, `map` and `[...new Set()]` as Dafny functions with their characterising contracts.
- `text.dfy`: `trim` with the JavaScript whitespace set, ASCII `toLowerCase`, `split`, `join` and `includes`.
- `records.dfy`: the record kinds, drafts and partial updates (the shallow spread merge).

Clock readings and generated ids (`Date.now()`) are parameters. Where the
code and its description disagree, the model follows the code:
- `deleteFolder` reports success whenever any folder was removed, even if only children matched.
- Opening the store restores the persisted user without checking that the account still exists.
- `clearAll` removes the un-namespaced `todos`/`documents`/`notes` keys, not the namespaced ones, and leaves the in-memory session as it is.

## Model

| member | source | states |
|---|---|---|
| Collections.KeepIf | src/utils/storage.ts:220-227 | `filter` keeps exactly the elements that pass, never grows the list, and returns the list unchanged exactly when every element passes |
| Collections.KeepIfAppend | src/utils/storage.ts:332-346 | filtering distributes over concatenation, so survivors keep their relative order |
| Collections.KeepIfCount | src/utils/storage.ts:220-227 | filtering keeps every passing value as often as it occurred and drops every failing one |
| Collections.KeepIfAgree | src/components/DocumentManager.tsx:224-228 | filters with pointwise-equal predicates give equal lists |
| Collections.KeepIfIdempotent | src/utils/storage.ts:171-177 | filtering a filtered list again with the same predicate changes nothing, so a category view is stable under re-filtering |
| Collections.FindIndex | src/utils/storage.ts:210-218 | `findIndex` gives -1 exactly when no element has the key, otherwise the first index whose element has it |
| Collections.WithKey | src/utils/storage.ts:375-378 | keeps exactly the elements whose key equals the given key |
| Collections.WithoutKey | src/utils/storage.ts:220-227 | keeps exactly the elements whose key differs; the length is unchanged exactly when `findIndex` finds nothing |
| Collections.MapSeq | src/utils/storage.ts:339-341 | `map` keeps the length and transforms each element in place |
| Collections.MapSeqAppend | src/utils/storage.ts:339-341 | mapping distributes over concatenation |
| Collections.DistinctFrom | src/utils/storage.ts:179-183 | the values not already seen, each once |
| Collections.Distinct | src/utils/storage.ts:179-183 | `[...new Set(s)]` holds every value of `s` and no duplicates |
| Collections.DistinctKeys | src/utils/storage.ts:179-183 | the category list holds exactly the categories in use, each once |
| Text.LeadingSpace | src/components/Notes.tsx:76 | the whitespace run `trim` removes at the front is maximal |
| Text.TrimEnd | src/components/Notes.tsx:76 | the whitespace run `trim` removes at the back is maximal: everything from the returned position on is whitespace and the character before it is not |
| Text.Trim | src/components/Notes.tsx:76 | `trim` yields a contiguous slice of the input with only whitespace before and after it and none at its own ends; it is empty exactly when the input is all whitespace |
| Text.TrimTrimmed | src/components/DocumentManager.tsx:133-139 | trimming a trimmed string changes nothing (trim is idempotent) |
| Text.TrimAfterSpace | src/components/Notes.tsx:57 | the space `join(', ')` inserts before a tag is removed again by `trim` |
| Text.LowerChar | src/components/DocumentManager.tsx:104 | an ASCII capital becomes the lower-case letter 32 code points above it; everything else is unchanged |
| Text.ToLower | src/components/DocumentManager.tsx:104 | lower-casing keeps the length and lowers each character |
| Text.Split | src/components/DocumentManager.tsx:104 | `split` gives at least one piece and no piece contains the separator |
| Text.JoinEnds | src/components/Notes.tsx:57 | a `join` of at least one part starts with the first part and ends with the last |
| Text.ContainsAt | src/components/DocumentManager.tsx:225 | `includes` holds exactly when the searched text occurs in the string at some offset |
| Text.AfterLast | src/components/DocumentManager.tsx:104 | the index just after the last separator (0 when there is none): the text from there on holds no separator |
| Text.SplitLastPiece | src/components/DocumentManager.tsx:104 | `split(...).pop()` is the text after the last separator |
| Text.SplitSnoc | src/components/Notes.tsx:76 | one more character either opens a new piece (the separator) or extends the last one |
| Text.SplitNoSeparator | src/components/DocumentManager.tsx:104 | a string without the separator splits into itself |
| Text.SplitAppendPiece | src/components/Notes.tsx:76 | appending a separator and a separator-free piece appends that piece to the split |
| Text.JoinSplit | src/components/Notes.tsx:57 | `split` then `join` on the same separator returns the input |
| Records.MergeEmptyPatches | src/utils/storage.ts:210-218 | an update with no keys leaves the record unchanged (shallow spread merge) |
| Records.MergeTodo | src/utils/storage.ts:215 | `{ ...todo, ...updates }`: each key present in the update takes the update's value, each absent key keeps the todo's |
| Records.MergeFolder | src/utils/storage.ts:327 | the same shallow merge for folders |
| Records.MergeDocument | src/utils/storage.ts:271 | the same shallow merge for documents |
| Records.MergeNote | src/utils/storage.ts:446-450 | the same shallow merge for notes |
| Records.MergeIdempotent | src/utils/storage.ts:266-274 | applying the same partial update twice is applying it once, for every record kind |
| Records.MergeTodoOnlyCompleted | src/utils/storage.ts:210-218 | toggling `completed` changes no other field |
| Records.MergeDocumentOnlyFolder | src/utils/storage.ts:380-388 | setting `folderId` changes no other field |
| FolderTree.FolderNode.constructor | src/utils/storage.ts:354 | a wrapper copies its folder and starts with no children |
| FolderTree.LastIndexOf | src/utils/storage.ts:353-355 | the index whose wrapper the id map keeps: the last folder with the id, or -1 |
| FolderTree.RootIndices | src/utils/storage.ts:362-363 | root indices are in range |
| FolderTree.ChildIndices | src/utils/storage.ts:364-368 | child indices are in range |
| FolderTree.RootIndicesExact | src/utils/storage.ts:360-370 | the roots are exactly the parentless folders, in input order |
| FolderTree.ChildIndicesExact | src/utils/storage.ts:360-370 | the children of an id are exactly the folders whose `parentId` is it, in input order |
| FolderTree.WrappersAt | src/utils/storage.ts:361 | one wrapper per listed index, fetched through the id map |
| FolderTree.UniqueIdsRepresentSelf | src/utils/storage.ts:353-355 | with unique ids every folder owns its own wrapper |
| FolderTree.OrphanAppearsNowhere | src/utils/storage.ts:364-368 | a folder whose parent is missing is neither a root nor anyone's child |
| FolderTree.RootIndicesSnoc | src/utils/storage.ts:362-363 | one more folder adds its index to the roots exactly when it has no parent |
| FolderTree.ChildIndicesSnoc | src/utils/storage.ts:365-367 | one more folder adds its index to a parent's children exactly when it names that parent |
| FolderTree.WorkedExample | src/utils/storage.ts:348-373 | for folders 1, 2 under 1, 3 under 2 and 4 under a missing id, the forest is 1 → 2 → 3 and 4 is dropped |
| FolderTree.ExampleRoots | src/utils/storage.ts:362-363 | the worked example has the single root 1 |
| FolderTree.ExampleChildren | src/utils/storage.ts:365-367 | the worked example's child lists |
| FolderTree.LastIndexOfStep | src/utils/storage.ts:353-355 | registering one more folder makes it the owner of its id |
| FolderTree.RegistryLookup | src/utils/storage.ts:353-355 | after the first pass the map answers an id with the wrapper of the last folder bearing it |
| FolderTree.WrappersAtSnoc | src/utils/storage.ts:363 | appending an index appends that folder's wrapper |
| FolderTree.RootsStep | src/utils/storage.ts:362-363 | each step of the second pass adds a parentless folder's wrapper to the roots |
| FolderTree.ChildrenStep | src/utils/storage.ts:364-368 | each step of the second pass appends the folder's wrapper to its parent's representative and to no other wrapper |
| FolderTree.BuildForest | src/utils/storage.ts:348-373 | `getFolderTree` yields one fresh wrapper per folder; the roots are the parentless folders' wrappers in order; each representative wrapper's children are its child folders' wrappers in order |
| FolderTree.MakeWrappers | src/utils/storage.ts:353-355 | the first pass makes distinct childless wrappers and registers them by id |
| FolderTree.LinkWrappers | src/utils/storage.ts:360-370 | the second pass collects the roots and links every child under its parent |
| FolderTree.LinkOne | src/utils/storage.ts:360-369 | one iteration of the second pass: afterwards the roots are the wrappers of the parentless folders among the first j+1, in order, and each registered wrapper's children are the wrappers of those folders whose parent id is its id (a folder whose parent is missing lands nowhere) |
| Storage.Scope | src/utils/storage.ts:156-158 | the namespace is the user id, or 'guest' when no user is signed in or the id is empty |
| Storage.DataKey | src/utils/storage.ts:156-158 | a collection key is the scope, an underscore, and the collection name |
| Storage.DataKeyInjective | src/utils/storage.ts:156-158 | two sessions share a collection key exactly when they share a scope |
| Storage.DistinctUsersDistinctKeys | src/utils/storage.ts:156-158 | users with distinct non-empty ids never share a collection key |
| Storage.EmptyIdIsGuest | src/utils/storage.ts:156-158 | a user with an empty id shares the guest namespace |
| Storage.Load | src/utils/storage.ts:161-169 | a collection reads as its parsed payload, or empty when absent or unparseable |
| Storage.WriteIsolated | src/utils/storage.ts:185-191 | writing one key leaves every other key's collection unchanged |
| Storage.SessionsIsolated | src/utils/storage.ts:156-191 | a write in one scope is invisible to a session in another |
| Storage.DeleteFolderIsShallow | src/utils/storage.ts:332-346 | deleting a folder removes it and its children but not a grandchild, which then appears nowhere in the forest |
| Storage.SurvivingFolders | src/utils/storage.ts:334 | the kept folders are exactly those that are neither the folder nor a direct child of it |
| Storage.DetachedDocuments | src/utils/storage.ts:338-341 | documents filed under the folder move to the root (folder id null); every other document and every other field is unchanged |
| Storage.ReplaceFirst | src/utils/storage.ts:517-525 | the first site with the id becomes the given site and every other position is unchanged; nothing changes when no id matches |
| Storage.StorageService.constructor | src/utils/storage.ts:74-87 | opening the store restores the persisted user, or no user when it is absent or unparseable |
| Storage.StorageService.Users | src/utils/storage.ts:138-146 | the account list is the parsed `users` payload, or empty when it is absent or does not parse |
| Storage.StorageService.SaveUsers | src/utils/storage.ts:148-154 | the account list is replaced |
| Storage.StorageService.Login | src/utils/storage.ts:93-107 | login succeeds exactly when some account has both the username and the password; it signs in the first such account and persists it; on failure the session is unchanged |
| Storage.StorageService.Register | src/utils/storage.ts:109-131 | a taken username is refused with nothing written; otherwise the new account is appended; usernames stay unique |
| Storage.StorageService.Logout | src/utils/storage.ts:133-136 | no user is signed in and the persisted session is removed |
| Storage.StorageService.Todos | src/utils/storage.ts:161-169 | the todos are the parsed payload of the user's todos key, or empty when it is absent or does not parse |
| Storage.StorageService.TodosByCategory | src/utils/storage.ts:171-177 | no category, '' or '全部' gives every todo, otherwise exactly the todos of that category |
| Storage.StorageService.TodoCategories | src/utils/storage.ts:179-183 | exactly the categories in use, each once |
| Storage.StorageService.SaveTodos | src/utils/storage.ts:185-191 | only the scoped todos key is written |
| Storage.StorageService.AddTodo | src/utils/storage.ts:193-208 | with no user: fails with nothing written; otherwise appends the todo stamped with the user's id and `now` |
| Storage.StorageService.UpdateTodo | src/utils/storage.ts:210-218 | an unknown id gives null with nothing written; otherwise the first match is merged in place |
| Storage.StorageService.DeleteTodo | src/utils/storage.ts:220-227 | reports whether a todo had the id; writes the list without every match, or nothing |
| Storage.StorageService.Documents | src/utils/storage.ts:230-238 | the documents are the parsed payload of the user's documents key, or empty |
| Storage.StorageService.SaveDocuments | src/utils/storage.ts:240-246 | only the scoped documents key is written |
| Storage.StorageService.AddDocument | src/utils/storage.ts:248-264 | with no user: fails; otherwise appends the document stamped with the user and `now`, with an empty folder id stored as null |
| Storage.StorageService.UpdateDocument | src/utils/storage.ts:266-274 | an unknown id gives null with nothing written; otherwise the first match is merged in place |
| Storage.StorageService.DeleteDocument | src/utils/storage.ts:276-283 | reports whether a document had the id; removes every match, or writes nothing |
| Storage.StorageService.DocumentsByFolder | src/utils/storage.ts:375-378 | exactly the documents filed under the folder (null: the root) |
| Storage.StorageService.MoveDocumentToFolder | src/utils/storage.ts:380-388 | an unknown document gives false with nothing written; otherwise only the first match's folder changes |
| Storage.StorageService.Folders | src/utils/storage.ts:286-294 | the folders are the parsed payload of the user's folders key, or empty |
| Storage.StorageService.SaveFolders | src/utils/storage.ts:296-302 | only the scoped folders key is written |
| Storage.StorageService.AddFolder | src/utils/storage.ts:304-320 | with no user: fails; otherwise appends the folder under the given parent |
| Storage.StorageService.UpdateFolder | src/utils/storage.ts:322-330 | an unknown id gives null with nothing written; otherwise the first match is merged in place |
| Storage.StorageService.DeleteFolder | src/utils/storage.ts:332-346 | false with nothing written exactly when no folder is or is a child of the id; otherwise writes the surviving folders and the detached documents |
| Storage.StorageService.GetFolderTree | src/utils/storage.ts:348-373 | the forest of the current folders, as `BuildForest` states, built from fresh wrappers |
| Storage.StorageService.Notes | src/utils/storage.ts:391-399 | the notes are the parsed payload of the user's notes key, or empty |
| Storage.StorageService.NotesByCategory | src/utils/storage.ts:401-407 | no category, '' or '全部' gives every note, otherwise exactly the notes of that category |
| Storage.StorageService.NoteCategories | src/utils/storage.ts:409-413 | exactly the note categories in use, each once |
| Storage.StorageService.SaveNotes | src/utils/storage.ts:415-421 | only the scoped notes key is written |
| Storage.StorageService.AddNote | src/utils/storage.ts:423-439 | with no user: fails; otherwise appends the note with created and updated time both `now` |
| Storage.StorageService.UpdateNote | src/utils/storage.ts:441-453 | an unknown id gives null; otherwise the first match is merged and its update time is `now`, whatever the patch says |
| Storage.StorageService.DeleteNote | src/utils/storage.ts:455-462 | reports whether a note had the id; removes every match, or writes nothing |
| Storage.StorageService.Websites | src/utils/storage.ts:476-484 | the websites are the parsed payload of the user's websites key, or empty |
| Storage.StorageService.UserWebsites | src/utils/storage.ts:486-494 | reads `<userId>_websites` as given: the signed-in user's own list for its non-empty id, and `_websites` for an empty id |
| Storage.StorageService.WebsiteCategories | src/utils/storage.ts:536-540 | exactly the website categories in use, each once |
| Storage.StorageService.SaveWebsites | src/utils/storage.ts:496-502 | only the scoped websites key is written |
| Storage.StorageService.SaveWebsite | src/utils/storage.ts:504-515 | upsert: replaces the first site with the id or appends; afterwards the site is stored |
| Storage.StorageService.UpdateWebsite | src/utils/storage.ts:517-525 | replaces the first site with the id; writes nothing when there is none |
| Storage.StorageService.DeleteWebsite | src/utils/storage.ts:527-534 | reports whether a site had the id; removes every match, or writes nothing |
| Storage.StorageService.ClearUserData | src/utils/storage.ts:465-473 | with a user: the five scoped keys are removed and every collection reads empty; without one: nothing changes |
| Storage.StorageService.ClearAll | src/utils/storage.ts:543-549 | removes the un-namespaced todos/documents/notes keys, the accounts and the persisted session, and nothing else |
| DocumentManager.Extension | src/components/DocumentManager.tsx:104 | the extension is the lower-cased text after the last dot (the whole name when there is none), and contains no dot |
| DocumentManager.Classify | src/components/DocumentManager.tsx:105-113 | pdf → PDF, doc/docx → Word, xls/xlsx → Excel, txt → 文本, and 其他 for anything else, each in both directions |
| DocumentManager.FileType | src/components/DocumentManager.tsx:103-114 | every file gets one of the five labels |
| DocumentManager.FileCategory | src/components/DocumentManager.tsx:116-118 | the category of an upload is its type label |
| DocumentManager.FileTypeWithoutDot | src/components/DocumentManager.tsx:103-114 | a name without a dot is classified as a whole |
| DocumentManager.FileTypeByExtension | src/components/DocumentManager.tsx:103-114 | a file is classified by what follows its last dot, whatever precedes it |
| DocumentManager.FileTypeIgnoresCase | src/components/DocumentManager.tsx:104 | classification ignores ASCII case |
| DocumentManager.SplitToLower | src/components/DocumentManager.tsx:104 | lower-casing commutes with splitting on '.' |
| DocumentManager.SplitToLowerStep | src/components/DocumentManager.tsx:104 | the inductive step of that commutation |
| DocumentManager.LowerSnoc | src/components/DocumentManager.tsx:104 | lower-casing works character by character |
| DocumentManager.LowerIdempotent | src/components/DocumentManager.tsx:225 | lower-casing twice is lower-casing once |
| DocumentManager.UploadDraft | src/components/DocumentManager.tsx:84-101 | the upload is typed and categorised by its name (category = type); its content is exactly the first 1000 characters (all of it when shorter); it is filed under the selected folder |
| DocumentManager.SaveUpload | src/components/DocumentManager.tsx:84-101 | with no user: fails with nothing written; otherwise the stored record has the given id, name, size, file data, the name's type and category, the cut content, the upload time, the user's id and the selected folder (empty stored as null), and is appended to the user's documents key, every other key unchanged |
| DocumentManager.FilteredDocuments | src/components/DocumentManager.tsx:224-228 | a document is listed exactly when its lower-cased name contains the lower-cased search text and the category is '全部' or its own |
| DocumentManager.MatchesAt | src/components/DocumentManager.tsx:224-228 | the filter predicate holds exactly when the lower-cased search text occurs at some offset of the lower-cased name and the category is '全部' or the document's |
| DocumentManager.NoFilterShowsAll | src/components/DocumentManager.tsx:224-228 | an empty search with '全部' lists every document |
| DocumentManager.SearchIgnoresCase | src/components/DocumentManager.tsx:225 | the search text's case does not change the list |
| DocumentManager.CreateFolder | src/components/DocumentManager.tsx:132-147 | a name that trims to nothing is refused with nothing written; with no user it fails with nothing written; otherwise the folder (given id, trimmed name, selected parent, creation time, the user's id) is appended to the user's folders key, every other key unchanged |
| DocumentReader.ZoomIn | src/components/DocumentReader.tsx:42-44 | zoom in adds 10 and saturates at 200 |
| DocumentReader.ZoomOut | src/components/DocumentReader.tsx:46-48 | zoom out subtracts 10 and saturates at 50 |
| DocumentReader.Step | src/components/DocumentReader.tsx:20-26 | one zoom event keeps a zoom within [50, 200], and opening a document resets it to 100 |
| DocumentReader.Replay | src/components/DocumentReader.tsx:20-48 | a sequence of zoom events stays within [50, 200] from a zoom in range or once a document was opened, and ends at 100 when the last event opens a document |
| DocumentReader.StepKeepsValid | src/components/DocumentReader.tsx:20-26 | every button press or document change keeps the zoom in [50, 200] and a multiple of 10 |
| DocumentReader.ReplayKeepsValid | src/components/DocumentReader.tsx:17 | from the initial 100 every sequence of zoom events stays in [50, 200] in steps of 10 |
| DocumentReader.ZoomRoundTrip | src/components/DocumentReader.tsx:42-48 | in then out (below the maximum), and out then in (above the minimum), return to the starting zoom |
| DocumentReader.LoadFails | src/components/DocumentReader.tsx:28-40 | `loadDocument` sets its error exactly when the file data is absent or empty |
| DocumentReader.ContentType | src/components/DocumentReader.tsx:76-96 | the MIME type for each label or extension, case-insensitively, with octet-stream otherwise |
| DocumentReader.PaneText | src/components/DocumentReader.tsx:128-141 | the text pane shows the content, or '无内容' when it is empty |
| DocumentReader.RenderView | src/components/DocumentReader.tsx:98-177 | each lower-cased type reaches its branch and only that one; PDF, Word and Excel documents get an embedded frame exactly when they have file data, carrying its data URL, and an unavailable notice otherwise; the text pane shows the content or '无内容' |
| DocumentReader.BranchOf | src/components/DocumentReader.tsx:111-177 | the case groups of the switch: 'pdf'; 'text' or 'txt'; 'word', 'doc' or 'docx'; 'excel', 'xls' or 'xlsx'; each reached exactly by its labels |
| DocumentReader.LowerLabels | src/components/DocumentManager.tsx:105-113 | the upload labels PDF, Word and Excel lower-case to reader branches; 文本 and 其他 are unchanged |
| DocumentReader.TextUploadUnreadable | src/components/DocumentReader.tsx:111-177 | an uploaded `.txt` file is labelled 文本, renders as unsupported, and `getContentType` gives it octet-stream |
| DocumentReader.TxtIsText | src/components/DocumentManager.tsx:103-114 | a file named with a `.txt` extension is labelled 文本 |
| DocumentReader.TextLabelUnlisted | src/components/DocumentReader.tsx:76-96 | the label 文本, lower-cased, is in no case group of the reader, and its content type is octet-stream |
| DocumentReader.IntendedRenderView | src/components/DocumentReader.tsx:127-141 | the corrected dispatch sends 文本 to the text pane and is otherwise the original |
| DocumentReader.UploadsAreReadable | src/components/DocumentReader.tsx:111-177 | with the corrected dispatch every PDF, Word, Excel or text upload gets a view of its kind |
| Notes.ParseTags | src/components/Notes.tsx:76 | an empty or missing field gives no tags; every parsed tag is non-empty, comma-free and trimmed |
| Notes.PieceTags | src/components/Notes.tsx:76 | split on ',', trim and drop empties: every resulting tag is non-empty, comma-free and trimmed |
| Notes.JoinTags | src/components/Notes.tsx:57 | no tags give an empty field and one tag is itself; the round trip with parsing is `TagsRoundTrip` |
| Notes.JoinTagsSnoc | src/components/Notes.tsx:57 | one more tag appends ', ' and that tag |
| Notes.PieceTagsSingle | src/components/Notes.tsx:76 | a trimmed comma-free field is one tag, or none when empty |
| Notes.PieceTagsSnoc | src/components/Notes.tsx:76 | appending ", " and a tag to a field appends that tag to its parse |
| Notes.PieceTagsJoin | src/components/Notes.tsx:57 | parsing the joined tags returns them, for any number of tags |
| Notes.PieceTagsJoinStep | src/components/Notes.tsx:57 | the inductive step: the last joined tag is parsed back after the earlier ones |
| Notes.TagsRoundTrip | src/components/Notes.tsx:53-60 | opening a note for editing and saving unchanged keeps its tags |
| Notes.JoinNonEmpty | src/components/Notes.tsx:57 | joining at least one tag gives a non-empty field, which is therefore parsed |
| Notes.ParseTagsNormalises | src/components/Notes.tsx:76 | parse, join, parse gives the first parse |
| Notes.FilterNotes | src/components/Notes.tsx:35-41 | '全部' shows every note, otherwise exactly the notes of the category |
| WebsiteNavigation.ArrayMove | src/components/WebsiteNavigation.tsx:247 | a move keeps the length and puts the dragged site at the target index |
| WebsiteNavigation.ArrayMoveAt | src/components/WebsiteNavigation.tsx:247 | where every element of a move comes from |
| WebsiteNavigation.MoveSourceInjective | src/components/WebsiteNavigation.tsx:247 | distinct positions come from distinct positions |
| WebsiteNavigation.ArrayMovePermutes | src/components/WebsiteNavigation.tsx:247 | a move is a permutation |
| WebsiteNavigation.ArrayMoveInverse | src/components/WebsiteNavigation.tsx:247 | moving back undoes a move |
| WebsiteNavigation.ArrayMoveMap | src/components/WebsiteNavigation.tsx:247-253 | moving commutes with mapping |
| WebsiteNavigation.Renumber | src/components/WebsiteNavigation.tsx:250-253 | renumbering sets each position to its index and changes nothing else |
| WebsiteNavigation.RenumberIds | src/components/WebsiteNavigation.tsx:250-253 | renumbering keeps the ids in their order |
| WebsiteNavigation.Reorder | src/components/WebsiteNavigation.tsx:240-265 | dropping on another site moves the dragged site to the target's index and leaves positions equal to indices; dropping on itself changes nothing |
| WebsiteNavigation.ReorderPermutes | src/components/WebsiteNavigation.tsx:240-265 | a reorder keeps the same sites, apart from positions |
| WebsiteNavigation.ArrayMoveIds | src/components/WebsiteNavigation.tsx:247 | a move keeps ids unique and drawn from the list |
| WebsiteNavigation.ReorderIds | src/components/WebsiteNavigation.tsx:240-265 | a reorder keeps ids unique and drawn from the list |
| WebsiteNavigation.PersistAllKeepsIds | src/components/WebsiteNavigation.tsx:256-259 | persisting each site leaves the stored order of ids and every other key unchanged |
| WebsiteNavigation.PersistOne | src/utils/storage.ts:517-525 | `updateWebsite` writes nothing for an unknown id, otherwise stores the site; the stored ids keep their order and no other key changes |
| WebsiteNavigation.PersistAll | src/components/WebsiteNavigation.tsx:256-259 | calling `updateWebsite` for each site in turn writes only the websites key |
| WebsiteNavigation.PersistAllPrefix | src/components/WebsiteNavigation.tsx:256-259 | persisting one more site of the list is one more `updateWebsite` |
| WebsiteNavigation.PersistEach | src/components/WebsiteNavigation.tsx:256-259 | the loop calling `updateWebsite` for each site leaves the stored websites as `PersistAll` of the old slots, and touches nothing else |
| WebsiteNavigation.UniqueIdsByIds | src/utils/storage.ts:517-525 | uniqueness of ids depends only on the sequence of ids |
| WebsiteNavigation.ReplaceFirstStores | src/utils/storage.ts:517-525 | with unique stored ids, updating a stored site stores it and keeps every other site |
| WebsiteNavigation.PersistOneFound | src/utils/storage.ts:517-525 | updating a site whose id is stored replaces its first namesake |
| WebsiteNavigation.PersistAllStores | src/components/WebsiteNavigation.tsx:256-259 | with unique ids, all stored, every persisted site ends up stored as given |
| WebsiteNavigation.PersistAllStep | src/components/WebsiteNavigation.tsx:258 | persisting one more site keeps the earlier ones stored |
| WebsiteNavigation.DragStoresNewOrder | src/components/WebsiteNavigation.tsx:240-265 | after a drag, when every listed id is stored and ids are unique, every site of the new order, with its new position, is stored, whatever order the store keeps |
| WebsiteNavigation.DragEnd | src/components/WebsiteNavigation.tsx:240-265 | returns the reordered list; persists each of its sites in order only when the drop moved something and a user is signed in; otherwise writes nothing |
| WebsiteNavigation.FilterWebsites | src/components/WebsiteNavigation.tsx:287-293 | '全部' shows every site, otherwise exactly the sites of the category |
| WebsiteNavigation.IconOr | src/components/WebsiteNavigation.tsx:312 | a non-empty entered icon wins, otherwise the fallback |
| WebsiteNavigation.NewWebsite | src/components/WebsiteNavigation.tsx:313-323 | a new site is positioned after the sites already listed |
| WebsiteNavigation.AppendKeepsDense | src/components/WebsiteNavigation.tsx:320 | appending at position `websites.length` keeps positions equal to indices |
| WebsiteNavigation.PositionCollisionAfterDelete | src/components/WebsiteNavigation.tsx:366-374 | deleting does not renumber, so the next added site can share the position of the last one |
| WebsiteNavigation.AddWebsite | src/components/WebsiteNavigation.tsx:304-333 | with no user: refused with nothing written; otherwise the new site (position `websites.length`, entered icon or favicon, the user's id) is upserted into the user's websites key, every other key unchanged, and appended to the list |
| WebsiteNavigation.AddPresetWebsite | src/components/WebsiteNavigation.tsx:376-402 | as adding a site, with the preset's icon: upserted into the user's websites key only, and appended to the list |
| WebsiteNavigation.EditedWebsite | src/components/WebsiteNavigation.tsx:345-353 | an edit keeps id, position, creation time and owner, takes the form's fields, and replaces the icon only with a non-empty one |
| WebsiteNavigation.ReplaceById | src/components/WebsiteNavigation.tsx:356 | every listed site with the edited id is replaced |
| WebsiteNavigation.EditKeepsDense | src/components/WebsiteNavigation.tsx:341-364 | editing keeps positions equal to indices when ids are unique |
| WebsiteNavigation.UpdateWebsiteHandler | src/components/WebsiteNavigation.tsx:341-364 | with no site being edited: nothing; otherwise the edited site replaces the first stored match in the user's websites key (nothing written when none matches, every other key unchanged) and every listed match |
| WebsiteNavigation.DeleteWebsiteHandler | src/components/WebsiteNavigation.tsx:366-374 | the list drops every site with the id; the user's websites key loses exactly the sites with the id and keeps every other, and nothing is written when none had it |
| WebsiteNavigation.NormalizeUrl | src/components/WebsiteNavigation.tsx:406-413 | the URL opened always has an http or https scheme, is the input when it had one, and otherwise is `https://` plus the input |
| WebsiteNavigation.HasScheme | src/components/WebsiteNavigation.tsx:409 | a URL with a scheme starts with `http` followed by `:` or `s` |
| WebsiteNavigation.NormalizeIdempotent | src/components/WebsiteNavigation.tsx:406-413 | normalising twice is normalising once |

## Left out

- Rendering, form validation, messages and modal state of the screens are not modelled; only the values the handlers compute and store are.
- JSON serialisation is not modelled: a stored payload is either parsed, absent or unparseable. Dates are millisecond counts.
- `JSON.stringify` dropping keys whose value is `undefined` is not modelled: an absent `parentId` and `null` are the same `None`.
- `Date.now()` ids and `new Date()` times are parameters, so two records created in the same millisecond sharing an id is not modelled.
- `fetchFavicon` (`new URL(url).origin`) is not modelled; the favicon URL is a parameter of `AddWebsite`.
- `window.open`, `FileReader`, `atob`, `Blob` and the download link are not modelled; the upload's content and file data are parameters, and so is the size summary text computed with `toFixed`.
- The Word/Excel viewer URL (`encodeURIComponent` and the viewer prefix) is not modelled; the view carries the data URL it wraps.
- `loadWebsites` (read the user's list, sort by position) is not modelled beyond `UserWebsites`.
- Text.ToLower: only ASCII letters are lowered; JavaScript `toLowerCase` also lowers other alphabets.
- Text.Trim, Text.Split, Text.ToLower: strings are sequences of characters, not of UTF-16 code units, so the 1000-character cut in `UploadDraft` may differ from `substring` on astral characters.
- Storage.StorageService.SaveTodos, SaveUsers, SaveDocuments, SaveFolders, SaveNotes, SaveWebsites: a failed `setItem` (for example an exceeded storage quota, which a large base64 `fileData` can cause) is caught and only logged, so the key keeps its old value while the calling operation (`addTodo`, `saveWebsite`, `updateDocument`, `SaveUpload`, `AddWebsite` and the rest) still reports success; the model treats every write as succeeding, so the stated new slot maps hold only when the write succeeds.
- DocumentReader.LoadFails: the opening effect (src/components/DocumentReader.tsx:20-26) calls `setError(null)` right after `loadDocument()` in the same pass, so the error `loadDocument` sets is overwritten and never displayed; a document without file data reaches the unavailable or unsupported branches of `RenderView` instead. The model states when the error is set, not what the reader displays.
- The download handler (src/components/DocumentReader.tsx:51-74) is not modelled. As written, the `document` prop shadows the DOM global, so `document.createElement('a')` is called on the stored record; it throws inside the `try` and the reader sets '下载失败', so no file of any type is downloaded. Only the content type it would use, `ContentType`, is modelled.
- Passwords are compared as stored plain strings; their security is outside the model.
- WebsiteNavigation.DragEnd and WebsiteNavigation.Reorder require both dragged and target ids to be in the list, as the sortable context only reports its own items; a null drop target, which throws, is modelled as "nothing changes".
- The files TodoList, Statistics, Sidebar, App, AppHeader and the build configuration are not part of this model.

## Findings

| source | as written | input that shows it | evidently intended | confidence | as-written member | corrected member |
|---|---|---|---|---|---|---|
| src/components/DocumentReader.tsx:111-177 | the reader dispatches on `text`/`txt`, but uploads of `.txt` files are stored with the type label `文本` (src/components/DocumentManager.tsx:111), so they fall into the unsupported-type branch, and `getContentType` gives them `application/octet-stream` | a document uploaded as `notes.txt` | a text upload, whose readable content is stored for preview (src/components/DocumentManager.tsx:65-70), is shown in the text pane | likely; not executed | DocumentReader.TextUploadUnreadable | DocumentReader.UploadsAreReadable |
