/**
 * The documents screen: classifying an uploaded file by its extension,
 * building the record an upload stores, the search-and-category filter of
 * the list, and creating a folder under the selected one.
 */
module DocumentManager {
  import opened Wrappers
  import opened Collections
  import opened Text
  import opened Records
  import opened Storage

  /** The type labels an upload can receive; they double as categories. */
  const PDF := "PDF"
  const WORD := "Word"
  const EXCEL := "Excel"
  const TEXT := "文本"
  const OTHER := "其他"
  /** Uploads keep at most this many characters of content. */
  const CONTENT_LIMIT := 1000

  predicate IsLabel(kind: string) {
    kind == PDF || kind == WORD || kind == EXCEL || kind == TEXT || kind == OTHER
  }

  /** `filename.split('.').pop()?.toLowerCase()`: the text after the last dot (the whole name when there is none), lower-cased. */
  function Extension(name: string): (ext: string)
    ensures '.' !in ext
    ensures ext == ToLower(name[AfterLast(name, '.')..])
  {
    var pieces := Split(name, '.');
    SplitLastPiece(name, '.');
    ToLower(pieces[|pieces| - 1])
  }

  /** The label of a lower-cased extension. */
  function Classify(ext: string): (kind: string)
    ensures IsLabel(kind)
    ensures kind == PDF <==> ext == "pdf"
    ensures kind == WORD <==> ext == "doc" || ext == "docx"
    ensures kind == EXCEL <==> ext == "xls" || ext == "xlsx"
    ensures kind == TEXT <==> ext == "txt"
  {
    if ext == "pdf" then PDF
    else if ext == "doc" || ext == "docx" then WORD
    else if ext == "xls" || ext == "xlsx" then EXCEL
    else if ext == "txt" then TEXT
    else OTHER
  }

  /** `getFileType`: the label of the file's extension. */
  function FileType(name: string): (kind: string)
    ensures IsLabel(kind)
  {
    Classify(Extension(name))
  }

  /** A name without a dot is classified as a whole: "pdf" is a PDF, "README" is other. */
  lemma FileTypeWithoutDot(name: string)
    requires '.' !in name
    ensures FileType(name) == Classify(ToLower(name))
  {
    SplitNoSeparator(name, '.');
  }

  /** `getFileCategory`: the category of an upload is its type label. */
  function FileCategory(name: string): (category: string)
    ensures IsLabel(category) && category == FileType(name)
  {
    FileType(name)
  }

  /** A file is classified by what follows its last dot, whatever comes before. */
  lemma FileTypeByExtension(base: string, ext: string)
    requires '.' !in ext
    ensures FileType(base + "." + ext) == Classify(ToLower(ext))
  {
    SplitAppendPiece(base, '.', ext);
    assert base + "." + ext == base + ['.'] + ext;
  }

  /** Classification ignores ASCII case: "REPORT.PDF" is a PDF like "report.pdf". */
  lemma FileTypeIgnoresCase(name: string)
    ensures FileType(ToLower(name)) == FileType(name)
  {
    SplitToLower(name);
    var pieces := Split(name, '.');
    var last := pieces[|pieces| - 1];
    LowerIdempotent(last);
  }

  /** Lower-casing commutes with splitting on '.', which has no case. */
  lemma {:induction false} SplitToLower(s: string)
    ensures Split(ToLower(s), '.') == MapSeq(Split(s, '.'), ToLower)
  {
    if |s| > 0 {
      var s', c := s[..|s| - 1], s[|s| - 1];
      assert s == s' + [c];
      SplitToLower(s');
      LowerSnoc(s', c);
      SplitSnoc(s', c, '.');
      SplitSnoc(ToLower(s'), LowerChar(c), '.');
      SplitToLowerStep(Split(s', '.'), c);
    }
  }

  /** The inductive step of `SplitToLower`, on the pieces of the prefix. */
  lemma SplitToLowerStep(init: seq<string>, c: char)
    requires |init| >= 1
    ensures var linit := MapSeq(init, ToLower);
      MapSeq(if c == '.' then init + [""] else init[..|init| - 1] + [init[|init| - 1] + [c]], ToLower)
      == if LowerChar(c) == '.' then linit + [""] else linit[..|linit| - 1] + [linit[|linit| - 1] + [LowerChar(c)]]
  {
    var n := |init|;
    if c == '.' {
      MapSeqAppend(init, [""], ToLower);
    } else {
      MapSeqAppend(init[..n - 1], [init[n - 1] + [c]], ToLower);
      LowerSnoc(init[n - 1], c);
      assert MapSeq(init, ToLower)[..n - 1] == MapSeq(init[..n - 1], ToLower);
    }
  }

  lemma LowerSnoc(s: string, c: char)
    ensures ToLower(s + [c]) == ToLower(s) + [LowerChar(c)]
  {
  }

  lemma LowerIdempotent(s: string)
    ensures ToLower(ToLower(s)) == ToLower(s)
  {
  }

  /**
   * The record `saveDocument` asks the store to add: typed and categorised
   * by the file name, content cut to its first 1000 characters, filed under
   * the selected folder.
   */
  function UploadDraft(name: string, size: nat, fileData: string, content: string,
                       selectedFolder: Option<string>): (d: DocumentDraft)
    ensures d.name == name && d.size == size && d.fileData == Some(fileData)
    ensures d.fileType == FileType(name) && d.category == d.fileType
    ensures d.content.Some? && |d.content.value| <= CONTENT_LIMIT
    ensures d.content.value <= content
    ensures |content| <= CONTENT_LIMIT ==> d.content == Some(content)
    ensures |content| > CONTENT_LIMIT ==> d.content == Some(content[..CONTENT_LIMIT])
    ensures d.folderId == selectedFolder
  {
    var kept := if |content| <= CONTENT_LIMIT then content else content[..CONTENT_LIMIT];
    DocumentDraft(name, FileType(name), size, FileCategory(name), Some(kept), Some(fileData), selectedFolder)
  }

  /** `saveDocument`: adds the upload's record through the store; fails when nobody is signed in. */
  method SaveUpload(storage: StorageService, name: string, size: nat, fileData: string, content: string,
                    selectedFolder: Option<string>, id: string, now: Timestamp)
    returns (r: Result<Document, StorageError>)
    modifies storage`documentSlots
    ensures storage.currentUser.None? ==> r.Failure? && storage.documentSlots == old(storage.documentSlots)
    ensures storage.currentUser.Some? ==>
              && r.Success?
              && r.value.id == id && r.value.name == name && r.value.size == size
              && r.value.fileType == FileType(name) && r.value.category == FileType(name)
              && r.value.content == UploadDraft(name, size, fileData, content, selectedFolder).content
              && r.value.fileData == Some(fileData)
              && r.value.uploadTime == now && r.value.userId == storage.currentUser.value.id
              && r.value.folderId == (if selectedFolder == Some("") then None else selectedFolder)
              && storage.documentSlots
                 == old(storage.documentSlots)[storage.DocumentsKey() := Parsed(old(storage.Documents()) + [r.value])]
  {
    r := storage.AddDocument(UploadDraft(name, size, fileData, content, selectedFolder), id, now);
  }

  /** The list filter: the name contains the search text, ignoring ASCII case, and the category is '全部' or the document's. */
  predicate Matches(d: Document, searchText: string, category: string) {
    Contains(ToLower(d.name), ToLower(searchText)) && (category == ALL || d.category == category)
  }

  /** A document matches exactly when its lower-cased name holds the lower-cased search text at some offset and the category fits. */
  lemma MatchesAt(d: Document, searchText: string, category: string)
    ensures var name, q := ToLower(d.name), ToLower(searchText);
      Matches(d, searchText, category) <==>
        (exists i :: OccursAt(name, q, i)) && (category == ALL || d.category == category)
  {
    ContainsAt(ToLower(d.name), ToLower(searchText));
  }

  function FilteredDocuments(documents: seq<Document>, searchText: string, category: string): (r: seq<Document>)
    ensures forall d :: d in r <==> d in documents && Matches(d, searchText, category)
    ensures |r| <= |documents|
  {
    KeepIf(documents, d => Matches(d, searchText, category))
  }

  /** With no search text and '全部' selected, the whole list is shown. */
  lemma NoFilterShowsAll(documents: seq<Document>)
    ensures FilteredDocuments(documents, "", ALL) == documents
  {
    forall i | 0 <= i < |documents|
      ensures Matches(documents[i], "", ALL)
    {
      assert ToLower("") == "";
    }
  }

  /** Searching is case-insensitive: the search text's case does not change the list. */
  lemma SearchIgnoresCase(documents: seq<Document>, searchText: string, category: string)
    ensures FilteredDocuments(documents, ToLower(searchText), category)
            == FilteredDocuments(documents, searchText, category)
  {
    LowerIdempotent(searchText);
    KeepIfAgree(documents, d => Matches(d, ToLower(searchText), category), d => Matches(d, searchText, category));
  }

  datatype CreateFolderError = EmptyName | NotSignedIn

  /**
   * `handleCreateFolder`: a name that trims to nothing is refused without
   * touching the store; otherwise the trimmed name becomes a folder under the
   * selected folder (at the root when none is selected).
   */
  method CreateFolder(storage: StorageService, newFolderName: string, selectedFolder: Option<string>,
                      id: string, now: Timestamp)
    returns (r: Result<Folder, CreateFolderError>)
    modifies storage`folderSlots
    ensures Trim(newFolderName) == "" ==> r == Failure(EmptyName) && storage.folderSlots == old(storage.folderSlots)
    ensures Trim(newFolderName) != "" && storage.currentUser.None? ==>
              r == Failure(NotSignedIn) && storage.folderSlots == old(storage.folderSlots)
    ensures Trim(newFolderName) != "" && storage.currentUser.Some? ==>
              && r == Success(Folder(id, Trim(newFolderName), selectedFolder, now, storage.currentUser.value.id))
              && IsTrimmed(r.value.name)
              && storage.folderSlots
                 == old(storage.folderSlots)[storage.FoldersKey() := Parsed(old(storage.Folders()) + [r.value])]
  {
    var name := Trim(newFolderName);
    if name == "" {
      return Failure(EmptyName);
    }
    var added := storage.AddFolder(name, selectedFolder, id, now);
    if added.Failure? {
      return Failure(NotSignedIn);
    }
    r := Success(added.value);
  }
}
