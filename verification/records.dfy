/**
 * The record kinds the store keeps, the drafts `add*` receives
 * (`Omit<T, 'id' | timestamps | 'userId'>`) and the partial updates
 * `update*` merges (`Partial<T>`).
 *
 * Timestamps are milliseconds since the epoch. In a patch, `None` means the
 * key is absent; for an optional field, `Some(None)` means the key is present
 * with the value `undefined`, which the spread merge copies like any other.
 */
module Records {
  import opened Wrappers

  type Timestamp = nat

  datatype User = User(id: string, username: string, email: string, password: string, createdAt: Timestamp)

  datatype Todo = Todo(
    id: string, title: string, description: Option<string>, category: string,
    completed: bool, createdAt: Timestamp, userId: string)

  datatype Folder = Folder(id: string, name: string, parentId: Option<string>, createdAt: Timestamp, userId: string)

  /** `fileType` is the source's `type` field: the classification label, e.g. "PDF". */
  datatype Document = Document(
    id: string, name: string, fileType: string, size: nat, category: string,
    content: Option<string>, fileData: Option<string>, uploadTime: Timestamp,
    userId: string, folderId: Option<string>)

  datatype Note = Note(
    id: string, title: string, content: string, category: string, tags: seq<string>,
    createdAt: Timestamp, updatedAt: Timestamp, userId: string)

  datatype Website = Website(
    id: string, name: string, url: string, icon: string, category: string,
    description: Option<string>, position: int, createdAt: Timestamp, userId: string)

  datatype TodoDraft = TodoDraft(title: string, description: Option<string>, category: string, completed: bool)

  datatype DocumentDraft = DocumentDraft(
    name: string, fileType: string, size: nat, category: string,
    content: Option<string>, fileData: Option<string>, folderId: Option<string>)

  datatype NoteDraft = NoteDraft(title: string, content: string, category: string, tags: seq<string>)

  datatype TodoPatch = TodoPatch(
    id: Option<string>, title: Option<string>, description: Option<Option<string>>,
    category: Option<string>, completed: Option<bool>, createdAt: Option<Timestamp>,
    userId: Option<string>)

  datatype FolderPatch = FolderPatch(
    id: Option<string>, name: Option<string>, parentId: Option<Option<string>>,
    createdAt: Option<Timestamp>, userId: Option<string>)

  datatype DocumentPatch = DocumentPatch(
    id: Option<string>, name: Option<string>, fileType: Option<string>, size: Option<nat>,
    category: Option<string>, content: Option<Option<string>>, fileData: Option<Option<string>>,
    uploadTime: Option<Timestamp>, userId: Option<string>, folderId: Option<Option<string>>)

  datatype NotePatch = NotePatch(
    id: Option<string>, title: Option<string>, content: Option<string>, category: Option<string>,
    tags: Option<seq<string>>, createdAt: Option<Timestamp>, updatedAt: Option<Timestamp>,
    userId: Option<string>)

  /** One field of `{ ...record, ...updates }`: the update's value when its key is present. */
  function Pick<T>(update: Option<T>, current: T): T {
    if update.Some? then update.value else current
  }

  /** A field after `{ ...record, ...updates }`: a key present in the update wins, an absent one keeps the record's value. */
  predicate Overrides<T(==)>(update: Option<T>, current: T, merged: T) {
    if update.Some? then merged == update.value else merged == current
  }

  function MergeTodo(t: Todo, p: TodoPatch): (r: Todo)
    ensures Overrides(p.id, t.id, r.id) && Overrides(p.title, t.title, r.title)
    ensures Overrides(p.description, t.description, r.description) && Overrides(p.category, t.category, r.category)
    ensures Overrides(p.completed, t.completed, r.completed) && Overrides(p.createdAt, t.createdAt, r.createdAt)
    ensures Overrides(p.userId, t.userId, r.userId)
  {
    Todo(Pick(p.id, t.id), Pick(p.title, t.title), Pick(p.description, t.description),
         Pick(p.category, t.category), Pick(p.completed, t.completed),
         Pick(p.createdAt, t.createdAt), Pick(p.userId, t.userId))
  }

  function MergeFolder(f: Folder, p: FolderPatch): (r: Folder)
    ensures Overrides(p.id, f.id, r.id) && Overrides(p.name, f.name, r.name)
    ensures Overrides(p.parentId, f.parentId, r.parentId) && Overrides(p.createdAt, f.createdAt, r.createdAt)
    ensures Overrides(p.userId, f.userId, r.userId)
  {
    Folder(Pick(p.id, f.id), Pick(p.name, f.name), Pick(p.parentId, f.parentId),
           Pick(p.createdAt, f.createdAt), Pick(p.userId, f.userId))
  }

  function MergeDocument(d: Document, p: DocumentPatch): (r: Document)
    ensures Overrides(p.id, d.id, r.id) && Overrides(p.name, d.name, r.name)
    ensures Overrides(p.fileType, d.fileType, r.fileType) && Overrides(p.size, d.size, r.size)
    ensures Overrides(p.category, d.category, r.category) && Overrides(p.content, d.content, r.content)
    ensures Overrides(p.fileData, d.fileData, r.fileData) && Overrides(p.uploadTime, d.uploadTime, r.uploadTime)
    ensures Overrides(p.userId, d.userId, r.userId) && Overrides(p.folderId, d.folderId, r.folderId)
  {
    Document(Pick(p.id, d.id), Pick(p.name, d.name), Pick(p.fileType, d.fileType),
             Pick(p.size, d.size), Pick(p.category, d.category), Pick(p.content, d.content),
             Pick(p.fileData, d.fileData), Pick(p.uploadTime, d.uploadTime),
             Pick(p.userId, d.userId), Pick(p.folderId, d.folderId))
  }

  function MergeNote(n: Note, p: NotePatch): (r: Note)
    ensures Overrides(p.id, n.id, r.id) && Overrides(p.title, n.title, r.title)
    ensures Overrides(p.content, n.content, r.content) && Overrides(p.category, n.category, r.category)
    ensures Overrides(p.tags, n.tags, r.tags) && Overrides(p.createdAt, n.createdAt, r.createdAt)
    ensures Overrides(p.updatedAt, n.updatedAt, r.updatedAt) && Overrides(p.userId, n.userId, r.userId)
  {
    Note(Pick(p.id, n.id), Pick(p.title, n.title), Pick(p.content, n.content),
         Pick(p.category, n.category), Pick(p.tags, n.tags), Pick(p.createdAt, n.createdAt),
         Pick(p.updatedAt, n.updatedAt), Pick(p.userId, n.userId))
  }

  /** A patch with no keys leaves a record as it is. */
  lemma MergeEmptyPatches(t: Todo, f: Folder, d: Document, n: Note)
    ensures MergeTodo(t, TodoPatch(None, None, None, None, None, None, None)) == t
    ensures MergeFolder(f, FolderPatch(None, None, None, None, None)) == f
    ensures MergeDocument(d, DocumentPatch(None, None, None, None, None, None, None, None, None, None)) == d
    ensures MergeNote(n, NotePatch(None, None, None, None, None, None, None, None)) == n
  {
  }

  /** Applying the same patch twice is applying it once. */
  lemma MergeIdempotent(t: Todo, tp: TodoPatch, f: Folder, fp: FolderPatch,
                        d: Document, dp: DocumentPatch, n: Note, np: NotePatch)
    ensures MergeTodo(MergeTodo(t, tp), tp) == MergeTodo(t, tp)
    ensures MergeFolder(MergeFolder(f, fp), fp) == MergeFolder(f, fp)
    ensures MergeDocument(MergeDocument(d, dp), dp) == MergeDocument(d, dp)
    ensures MergeNote(MergeNote(n, np), np) == MergeNote(n, np)
  {
  }

  /** A patch that sets only `completed` changes nothing else: the shallow merge leaves absent keys alone. */
  lemma MergeTodoOnlyCompleted(t: Todo, done: bool)
    ensures MergeTodo(t, TodoPatch(None, None, None, None, Some(done), None, None)) == t.(completed := done)
  {
  }

  /** A patch that names a document's `folderId` moves the document and changes nothing else. */
  lemma MergeDocumentOnlyFolder(d: Document, folderId: Option<string>)
    ensures MergeDocument(d, DocumentPatch(None, None, None, None, None, None, None, None, None, Some(folderId)))
            == d.(folderId := folderId)
  {
  }

  /** Key projections, passed to the generic sequence operations. */
  function UserName(u: User): string { u.username }
  function UserCredentials(u: User): (string, string) { (u.username, u.password) }
  function TodoId(t: Todo): string { t.id }
  function TodoCategory(t: Todo): string { t.category }
  function FolderId(f: Folder): string { f.id }
  function DocumentId(d: Document): string { d.id }
  function DocumentFolder(d: Document): Option<string> { d.folderId }
  function NoteId(n: Note): string { n.id }
  function NoteCategory(n: Note): string { n.category }
  function WebsiteId(w: Website): string { w.id }
  function WebsiteCategory(w: Website): string { w.category }
}
