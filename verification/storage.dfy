/**
 * `StorageService`: a per-user, namespaced record store over a flat
 * key-value substrate (the browser's `localStorage`).
 *
 * The substrate is modelled by what each key holds: the global `users` list,
 * the persisted `currentUser` record, and, per record kind, a map from the
 * namespaced key `<scope>_<kind>` to that key's payload. A payload that does
 * not parse reads as an empty collection, like an absent key.
 */
module Storage {
  import opened Wrappers
  import opened Collections
  import opened Records
  import opened FolderTree

  /** What the substrate holds under one key. */
  datatype Slot<T> = Absent | Parsed(value: T) | Unparseable

  /** The error `add*` throws when nobody is signed in ('用户未登录'). */
  datatype StorageError = Unauthenticated

  const USERS_KEY := "users"
  const CURRENT_USER_KEY := "currentUser"
  const TODOS_KEY := "todos"
  const DOCUMENTS_KEY := "documents"
  const NOTES_KEY := "notes"
  const FOLDERS_KEY := "folders"
  const WEBSITES_KEY := "websites"
  const GUEST := "guest"
  /** The category label that stands for "no filter". */
  const ALL := "全部"

  /** The namespace of the signed-in user: `currentUser?.id || 'guest'`. */
  function Scope(user: Option<User>): (s: string)
    ensures s != ""
    ensures user.Some? && user.value.id != "" ==> s == user.value.id
    ensures (user.None? || user.value.id == "") ==> s == GUEST
  {
    if user.Some? && user.value.id != "" then user.value.id else GUEST
  }

  /** `getUserDataKey(name)`: `<scope>_<name>`. */
  function DataKey(user: Option<User>, name: string): (key: string)
    ensures var s := Scope(user);
      |key| == |s| + 1 + |name| && key[..|s|] == s && key[|s|] == '_' && key[|s| + 1..] == name
  {
    Scope(user) + "_" + name
  }

  /** For one collection name, two sessions share a key exactly when they share a scope. */
  lemma DataKeyInjective(a: Option<User>, b: Option<User>, name: string)
    ensures DataKey(a, name) == DataKey(b, name) <==> Scope(a) == Scope(b)
  {
    if DataKey(a, name) == DataKey(b, name) {
      var ka, kb := DataKey(a, name), DataKey(b, name);
      assert |Scope(a)| == |Scope(b)|;
      assert Scope(a) == ka[..|Scope(a)|];
      assert Scope(b) == kb[..|Scope(b)|];
    }
  }

  /** Two signed-in users with distinct non-empty ids never share a collection key. */
  lemma DistinctUsersDistinctKeys(a: User, b: User, name: string)
    requires a.id != "" && b.id != "" && a.id != b.id
    ensures DataKey(Some(a), name) != DataKey(Some(b), name)
  {
    DataKeyInjective(Some(a), Some(b), name);
  }

  /** The `||` fallback: a user whose id is empty shares the guest namespace. */
  lemma EmptyIdIsGuest(u: User, name: string)
    requires u.id == ""
    ensures DataKey(Some(u), name) == DataKey(None, name)
  {
  }

  /** Reading a collection: the parsed payload, or `[]` when the key is absent or does not parse. */
  function Load<T>(m: map<string, Slot<seq<T>>>, key: string): (r: seq<T>)
    ensures key in m && m[key].Parsed? ==> r == m[key].value
    ensures !(key in m && m[key].Parsed?) ==> r == []
  {
    if key in m && m[key].Parsed? then m[key].value else []
  }

  /** Writing under one key leaves every other key's collection as it was. */
  lemma WriteIsolated<T>(m: map<string, Slot<seq<T>>>, written: string, read: string, s: seq<T>)
    requires written != read
    ensures Load(m[written := Parsed(s)], read) == Load(m, read)
  {
  }

  /**
   * Two sessions with different scopes never observe each other's writes:
   * a write by `writer` leaves what `reader` loads unchanged.
   */
  lemma SessionsIsolated<T>(m: map<string, Slot<seq<T>>>, writer: Option<User>, reader: Option<User>,
                            name: string, s: seq<T>)
    requires Scope(writer) != Scope(reader)
    ensures Load(m[DataKey(writer, name) := Parsed(s)], DataKey(reader, name)) == Load(m, DataKey(reader, name))
  {
    DataKeyInjective(writer, reader, name);
  }

  predicate UniqueUsernames(users: seq<User>) {
    forall i, j :: 0 <= i < j < |users| ==> users[i].username != users[j].username
  }

  /** The folders `deleteFolder(id)` keeps: neither `id` itself nor a direct child of it. */
  function SurvivingFolders(folders: seq<Folder>, id: string): (r: seq<Folder>)
    ensures forall f :: f in r <==> f in folders && f.id != id && f.parentId != Some(id)
  {
    KeepIf(folders, (f: Folder) => f.id != id && f.parentId != Some(id))
  }

  /**
   * Deleting a folder removes one level only: of a folder, its child and its
   * grandchild, the grandchild survives, and since its parent is gone it is
   * neither a root nor anyone's child in the folder forest.
   */
  lemma DeleteFolderIsShallow(root: Folder, child: Folder, grandchild: Folder)
    requires child.parentId == Some(root.id) && grandchild.parentId == Some(child.id)
    requires FolderTree.UniqueIds([root, child, grandchild])
    ensures SurvivingFolders([root, child, grandchild], root.id) == [grandchild]
    ensures RootIndices([grandchild]) == []
    ensures LastIndexOf([grandchild], child.id) == -1
  {
    var folders := [root, child, grandchild];
    assert folders[0] == root && folders[1] == child && folders[2] == grandchild;
    var p := (f: Folder) => f.id != root.id && f.parentId != Some(root.id);
    assert folders == [root] + [child] + [grandchild];
    KeepIfAppend([root] + [child], [grandchild], p);
    KeepIfAppend([root], [child], p);
    assert KeepIf([root], p) == [];
    assert KeepIf([child], p) == [];
    assert KeepIf([grandchild], p) == [grandchild];
    assert RootIndices([grandchild]) == RootIndices([grandchild][..0]) + [];
  }

  /** The documents after `deleteFolder(id)`: those filed under `id` move to the root. */
  function DetachedDocuments(documents: seq<Document>, id: string): (r: seq<Document>)
    ensures |r| == |documents|
    ensures forall i :: 0 <= i < |r| ==> r[i].folderId != Some(id)
    ensures forall i :: 0 <= i < |r| && documents[i].folderId == Some(id) ==> r[i].folderId == None
    ensures forall i :: 0 <= i < |r| && documents[i].folderId != Some(id) ==> r[i] == documents[i]
    ensures forall i :: 0 <= i < |r| ==> r[i] == documents[i].(folderId := r[i].folderId)
  {
    MapSeq(documents, (d: Document) => if d.folderId == Some(id) then d.(folderId := None) else d)
  }

  /** `updateWebsite(w)` on a list: the first record with `w`'s id is replaced, if there is one. */
  function ReplaceFirst(websites: seq<Website>, w: Website): (r: seq<Website>)
    ensures |r| == |websites|
    ensures MapSeq(r, WebsiteId) == MapSeq(websites, WebsiteId)
    ensures FindIndex(websites, WebsiteId, w.id) == -1 ==> r == websites
    ensures var i := FindIndex(websites, WebsiteId, w.id);
      i != -1 ==> r[i] == w && forall j :: 0 <= j < |r| && j != i ==> r[j] == websites[j]
  {
    var i := FindIndex(websites, WebsiteId, w.id);
    if i == -1 then websites else websites[i := w]
  }

  class StorageService {
    /** Substrate key `users`: every account, not namespaced. */
    var usersSlot: Slot<seq<User>>
    /** Substrate key `currentUser`: the persisted session. */
    var currentUserSlot: Slot<User>
    /** The in-memory session. */
    var currentUser: Option<User>
    var todoSlots: map<string, Slot<seq<Todo>>>
    var documentSlots: map<string, Slot<seq<Document>>>
    var folderSlots: map<string, Slot<seq<Folder>>>
    var noteSlots: map<string, Slot<seq<Note>>>
    var websiteSlots: map<string, Slot<seq<Website>>>

    /** Opening the store restores the persisted session, or none when it is absent or does not parse. */
    constructor (users: Slot<seq<User>>, persistedUser: Slot<User>,
                 todos: map<string, Slot<seq<Todo>>>, documents: map<string, Slot<seq<Document>>>,
                 folders: map<string, Slot<seq<Folder>>>, notes: map<string, Slot<seq<Note>>>,
                 websites: map<string, Slot<seq<Website>>>)
      ensures usersSlot == users && currentUserSlot == persistedUser
      ensures currentUser == if persistedUser.Parsed? then Some(persistedUser.value) else None
      ensures todoSlots == todos && documentSlots == documents && folderSlots == folders
      ensures noteSlots == notes && websiteSlots == websites
    {
      usersSlot, currentUserSlot := users, persistedUser;
      currentUser := if persistedUser.Parsed? then Some(persistedUser.value) else None;
      todoSlots, documentSlots, folderSlots := todos, documents, folders;
      noteSlots, websiteSlots := notes, websites;
    }

    // ---------------------------------------------------------------- session

    function Users(): (r: seq<User>)
      reads this`usersSlot
      ensures usersSlot.Parsed? ==> r == usersSlot.value
      ensures !usersSlot.Parsed? ==> r == []
    {
      if usersSlot.Parsed? then usersSlot.value else []
    }

    method SaveUsers(users: seq<User>)
      modifies this`usersSlot
      ensures usersSlot == Parsed(users)
    {
      usersSlot := Parsed(users);
    }

    /**
     * Signs in the first user whose username and password both match;
     * otherwise the session is left as it was.
     */
    method Login(username: string, password: string) returns (r: Option<User>)
      modifies this`currentUser, this`currentUserSlot
      ensures r.Some? <==> exists i :: 0 <= i < |Users()| && UserCredentials(Users()[i]) == (username, password)
      ensures r.Some? ==> exists i :: 0 <= i < |Users()| && r.value == Users()[i]
                            && r.value.username == username && r.value.password == password
                            && forall j :: 0 <= j < i ==> UserCredentials(Users()[j]) != (username, password)
      ensures r.Some? ==> currentUser == r && currentUserSlot == Parsed(r.value)
      ensures r.None? ==> currentUser == old(currentUser) && currentUserSlot == old(currentUserSlot)
    {
      var users := Users();
      var i := FindIndex(users, UserCredentials, (username, password));
      if i == -1 {
        assert forall j :: 0 <= j < |users| ==> UserCredentials(users[j]) != (username, password);
        return None;
      }
      var user := users[i];
      assert UserCredentials(user) == (username, password);
      currentUser := Some(user);
      currentUserSlot := Parsed(user);
      r := Some(user);
    }

    /**
     * Creates an account unless the username is taken; the new user is
     * appended to the global list. Registering does not sign in.
     */
    method Register(username: string, email: string, password: string, id: string, now: Timestamp)
      returns (r: Option<User>)
      modifies this`usersSlot
      ensures (exists i :: 0 <= i < |old(Users())| && old(Users())[i].username == username) ==>
                r.None? && usersSlot == old(usersSlot)
      ensures (forall i :: 0 <= i < |old(Users())| ==> old(Users())[i].username != username) ==>
                r == Some(User(id, username, email, password, now)) && Users() == old(Users()) + [r.value]
      ensures UniqueUsernames(old(Users())) ==> UniqueUsernames(Users())
    {
      var users := Users();
      if FindIndex(users, UserName, username) != -1 {
        return None;
      }
      var user := User(id, username, email, password, now);
      SaveUsers(users + [user]);
      r := Some(user);
    }

    /** Ends the session; the resulting state does not depend on the previous one, so a second logout changes nothing. */
    method Logout()
      modifies this`currentUser, this`currentUserSlot
      ensures currentUser == None && currentUserSlot == Absent
    {
      currentUser := None;
      currentUserSlot := Absent;
    }

    // ---------------------------------------------------------------- todos

    function TodosKey(): string reads this`currentUser { DataKey(currentUser, TODOS_KEY) }

    function Todos(): (r: seq<Todo>)
      reads this`currentUser, this`todoSlots
      ensures TodosKey() in todoSlots && todoSlots[TodosKey()].Parsed? ==> r == todoSlots[TodosKey()].value
      ensures !(TodosKey() in todoSlots && todoSlots[TodosKey()].Parsed?) ==> r == []
    {
      Load(todoSlots, TodosKey())
    }

    /** `getTodosByCategory`: no category, '' or '全部' gives every todo, otherwise the todos of that category in order. */
    function TodosByCategory(category: Option<string>): (r: seq<Todo>)
      reads this`currentUser, this`todoSlots
      ensures category.None? || category.value in {"", ALL} ==> r == Todos()
      ensures category.Some? && category.value !in {"", ALL} ==>
                forall t :: t in r <==> t in Todos() && t.category == category.value
    {
      if category.None? || category.value == "" || category.value == ALL then Todos()
      else WithKey(Todos(), TodoCategory, category.value)
    }

    /** `getTodoCategories`: every category in use, once each. */
    function TodoCategories(): (r: seq<string>)
      reads this`currentUser, this`todoSlots
      ensures forall c :: c in r <==> exists i :: 0 <= i < |Todos()| && Todos()[i].category == c
      ensures forall i, j :: 0 <= i < j < |r| ==> r[i] != r[j]
    {
      DistinctKeys(Todos(), TodoCategory)
    }

    method SaveTodos(todos: seq<Todo>)
      modifies this`todoSlots
      ensures todoSlots == old(todoSlots)[TodosKey() := Parsed(todos)]
      ensures Todos() == todos
    {
      todoSlots := todoSlots[TodosKey() := Parsed(todos)];
    }

    /** Appends a new todo owned by the signed-in user; throws when nobody is signed in. */
    method AddTodo(draft: TodoDraft, id: string, now: Timestamp) returns (r: Result<Todo, StorageError>)
      modifies this`todoSlots
      ensures currentUser.None? ==> r == Failure(Unauthenticated) && todoSlots == old(todoSlots)
      ensures currentUser.Some? ==>
                && r == Success(Todo(id, draft.title, draft.description, draft.category, draft.completed,
                                     now, currentUser.value.id))
                && r.value.userId == currentUser.value.id
                && todoSlots == old(todoSlots)[TodosKey() := Parsed(old(Todos()) + [r.value])]
    {
      if currentUser.None? {
        return Failure(Unauthenticated);
      }
      var todos := Todos();
      var todo := Todo(id, draft.title, draft.description, draft.category, draft.completed, now, currentUser.value.id);
      todos := todos + [todo];
      SaveTodos(todos);
      r := Success(todo);
    }

    /** Shallow-merges `updates` into the first todo with that id; `None` and no write when there is none. */
    method UpdateTodo(id: string, updates: TodoPatch) returns (r: Option<Todo>)
      modifies this`todoSlots
      ensures var i := FindIndex(old(Todos()), TodoId, id);
        && (i == -1 ==> r == None && todoSlots == old(todoSlots))
        && (i != -1 ==> r == Some(MergeTodo(old(Todos())[i], updates))
                        && todoSlots == old(todoSlots)[TodosKey() := Parsed(old(Todos())[i := r.value])])
    {
      var todos := Todos();
      var index := FindIndex(todos, TodoId, id);
      if index == -1 {
        return None;
      }
      todos := todos[index := MergeTodo(todos[index], updates)];
      SaveTodos(todos);
      r := Some(todos[index]);
    }

    /** Removes every todo with that id; `false` and no write when there is none. */
    method DeleteTodo(id: string) returns (removed: bool)
      modifies this`todoSlots
      ensures removed <==> exists i :: 0 <= i < |old(Todos())| && old(Todos())[i].id == id
      ensures !removed ==> todoSlots == old(todoSlots)
      ensures removed ==> todoSlots == old(todoSlots)[TodosKey() := Parsed(WithoutKey(old(Todos()), TodoId, id))]
    {
      var todos := Todos();
      var filtered := WithoutKey(todos, TodoId, id);
      if |filtered| == |todos| {
        return false;
      }
      SaveTodos(filtered);
      removed := true;
    }

    // ---------------------------------------------------------------- documents

    function DocumentsKey(): string reads this`currentUser { DataKey(currentUser, DOCUMENTS_KEY) }

    function Documents(): (r: seq<Document>)
      reads this`currentUser, this`documentSlots
      ensures DocumentsKey() in documentSlots && documentSlots[DocumentsKey()].Parsed? ==> r == documentSlots[DocumentsKey()].value
      ensures !(DocumentsKey() in documentSlots && documentSlots[DocumentsKey()].Parsed?) ==> r == []
    {
      Load(documentSlots, DocumentsKey())
    }

    method SaveDocuments(documents: seq<Document>)
      modifies this`documentSlots
      ensures documentSlots == old(documentSlots)[DocumentsKey() := Parsed(documents)]
      ensures Documents() == documents
    {
      documentSlots := documentSlots[DocumentsKey() := Parsed(documents)];
    }

    /**
     * Appends a new document owned by the signed-in user; a falsy `folderId`
     * (null or "") is stored as null. Throws when nobody is signed in.
     */
    method AddDocument(draft: DocumentDraft, id: string, now: Timestamp) returns (r: Result<Document, StorageError>)
      modifies this`documentSlots
      ensures currentUser.None? ==> r == Failure(Unauthenticated) && documentSlots == old(documentSlots)
      ensures currentUser.Some? ==>
                && r.Success?
                && r.value == Document(id, draft.name, draft.fileType, draft.size, draft.category, draft.content,
                                       draft.fileData, now, currentUser.value.id, r.value.folderId)
                && (r.value.folderId == if draft.folderId == Some("") then None else draft.folderId)
                && documentSlots == old(documentSlots)[DocumentsKey() := Parsed(old(Documents()) + [r.value])]
    {
      if currentUser.None? {
        return Failure(Unauthenticated);
      }
      var documents := Documents();
      var folderId := if draft.folderId.Some? && draft.folderId.value != "" then draft.folderId else None;
      var document := Document(id, draft.name, draft.fileType, draft.size, draft.category, draft.content,
                               draft.fileData, now, currentUser.value.id, folderId);
      documents := documents + [document];
      SaveDocuments(documents);
      r := Success(document);
    }

    /** Shallow-merges `updates` into the first document with that id; `None` and no write when there is none. */
    method UpdateDocument(id: string, updates: DocumentPatch) returns (r: Option<Document>)
      modifies this`documentSlots
      ensures var i := FindIndex(old(Documents()), DocumentId, id);
        && (i == -1 ==> r == None && documentSlots == old(documentSlots))
        && (i != -1 ==> r == Some(MergeDocument(old(Documents())[i], updates))
                        && documentSlots == old(documentSlots)[DocumentsKey() := Parsed(old(Documents())[i := r.value])])
    {
      var documents := Documents();
      var index := FindIndex(documents, DocumentId, id);
      if index == -1 {
        return None;
      }
      documents := documents[index := MergeDocument(documents[index], updates)];
      SaveDocuments(documents);
      r := Some(documents[index]);
    }

    /** Removes every document with that id; `false` and no write when there is none. */
    method DeleteDocument(id: string) returns (removed: bool)
      modifies this`documentSlots
      ensures removed <==> exists i :: 0 <= i < |old(Documents())| && old(Documents())[i].id == id
      ensures !removed ==> documentSlots == old(documentSlots)
      ensures removed ==> documentSlots == old(documentSlots)[DocumentsKey() := Parsed(WithoutKey(old(Documents()), DocumentId, id))]
    {
      var documents := Documents();
      var filtered := WithoutKey(documents, DocumentId, id);
      if |filtered| == |documents| {
        return false;
      }
      SaveDocuments(filtered);
      removed := true;
    }

    /** `getDocumentsByFolder`: the documents filed exactly under `folderId` (null: the root), in order. */
    function DocumentsByFolder(folderId: Option<string>): (r: seq<Document>)
      reads this`currentUser, this`documentSlots
      ensures forall d :: d in r <==> d in Documents() && d.folderId == folderId
      ensures |r| <= |Documents()|
    {
      WithKey(Documents(), DocumentFolder, folderId)
    }

    /**
     * Files the first document with that id under `folderId`, without
     * checking that the folder exists; `false` and no write for an unknown document.
     */
    method MoveDocumentToFolder(documentId: string, folderId: Option<string>) returns (moved: bool)
      modifies this`documentSlots
      ensures var i := FindIndex(old(Documents()), DocumentId, documentId);
        && (moved <==> i != -1)
        && (i == -1 ==> documentSlots == old(documentSlots))
        && (i != -1 ==> documentSlots == old(documentSlots)[DocumentsKey() :=
                          Parsed(old(Documents())[i := old(Documents())[i].(folderId := folderId)])])
    {
      var documents := Documents();
      var index := FindIndex(documents, DocumentId, documentId);
      if index == -1 {
        return false;
      }
      documents := documents[index := documents[index].(folderId := folderId)];
      SaveDocuments(documents);
      moved := true;
    }

    // ---------------------------------------------------------------- folders

    function FoldersKey(): string reads this`currentUser { DataKey(currentUser, FOLDERS_KEY) }

    function Folders(): (r: seq<Folder>)
      reads this`currentUser, this`folderSlots
      ensures FoldersKey() in folderSlots && folderSlots[FoldersKey()].Parsed? ==> r == folderSlots[FoldersKey()].value
      ensures !(FoldersKey() in folderSlots && folderSlots[FoldersKey()].Parsed?) ==> r == []
    {
      Load(folderSlots, FoldersKey())
    }

    method SaveFolders(folders: seq<Folder>)
      modifies this`folderSlots
      ensures folderSlots == old(folderSlots)[FoldersKey() := Parsed(folders)]
      ensures Folders() == folders
    {
      folderSlots := folderSlots[FoldersKey() := Parsed(folders)];
    }

    /** Appends a new folder owned by the signed-in user; throws when nobody is signed in. */
    method AddFolder(name: string, parentId: Option<string>, id: string, now: Timestamp)
      returns (r: Result<Folder, StorageError>)
      modifies this`folderSlots
      ensures currentUser.None? ==> r == Failure(Unauthenticated) && folderSlots == old(folderSlots)
      ensures currentUser.Some? ==>
                && r == Success(Folder(id, name, parentId, now, currentUser.value.id))
                && folderSlots == old(folderSlots)[FoldersKey() := Parsed(old(Folders()) + [r.value])]
    {
      if currentUser.None? {
        return Failure(Unauthenticated);
      }
      var folders := Folders();
      var folder := Folder(id, name, parentId, now, currentUser.value.id);
      folders := folders + [folder];
      SaveFolders(folders);
      r := Success(folder);
    }

    /** Shallow-merges `updates` into the first folder with that id; `None` and no write when there is none. */
    method UpdateFolder(id: string, updates: FolderPatch) returns (r: Option<Folder>)
      modifies this`folderSlots
      ensures var i := FindIndex(old(Folders()), FolderId, id);
        && (i == -1 ==> r == None && folderSlots == old(folderSlots))
        && (i != -1 ==> r == Some(MergeFolder(old(Folders())[i], updates))
                        && folderSlots == old(folderSlots)[FoldersKey() := Parsed(old(Folders())[i := r.value])])
    {
      var folders := Folders();
      var index := FindIndex(folders, FolderId, id);
      if index == -1 {
        return None;
      }
      folders := folders[index := MergeFolder(folders[index], updates)];
      SaveFolders(folders);
      r := Some(folders[index]);
    }

    /**
     * Removes folder `id` and its direct children (not deeper descendants)
     * and moves the documents filed under `id` to the root. Returns `false`,
     * writing nothing, only when no folder was removed.
     */
    method DeleteFolder(id: string) returns (removed: bool)
      modifies this`folderSlots, this`documentSlots
      ensures removed <==> exists i :: 0 <= i < |old(Folders())| &&
                             (old(Folders())[i].id == id || old(Folders())[i].parentId == Some(id))
      ensures !removed ==> folderSlots == old(folderSlots) && documentSlots == old(documentSlots)
      ensures removed ==>
                && folderSlots == old(folderSlots)[FoldersKey() := Parsed(SurvivingFolders(old(Folders()), id))]
                && documentSlots == old(documentSlots)[DocumentsKey() := Parsed(DetachedDocuments(old(Documents()), id))]
    {
      var folders := Folders();
      var filtered := SurvivingFolders(folders, id);
      if |filtered| == |folders| {
        return false;
      }
      var documents := Documents();
      SaveDocuments(DetachedDocuments(documents, id));
      SaveFolders(filtered);
      removed := true;
    }

    /**
     * `getFolderTree`: one wrapper per folder, then a second pass that puts
     * every parentless folder's wrapper in `roots` and appends every other
     * wrapper to its parent's children when the parent exists. `nodes[i]` is
     * the wrapper made for the i-th folder.
     */
    method GetFolderTree() returns (roots: seq<FolderNode>, ghost nodes: seq<FolderNode>)
      ensures |nodes| == |Folders()|
      ensures forall i :: 0 <= i < |nodes| ==> nodes[i].folder == Folders()[i]
      ensures forall i :: 0 <= i < |nodes| ==> fresh(nodes[i])
      ensures forall i, j :: 0 <= i < j < |nodes| ==> nodes[i] != nodes[j]
      ensures roots == WrappersAt(nodes, Folders(), RootIndices(Folders()))
      ensures forall i :: 0 <= i < |nodes| ==>
                (nodes[i].children ==
                   if i == LastIndexOf(Folders(), Folders()[i].id)
                   then WrappersAt(nodes, Folders(), ChildIndices(Folders(), Folders()[i].id))
                   else [])
    {
      roots, nodes := BuildForest(Folders());
    }

    // ---------------------------------------------------------------- notes

    function NotesKey(): string reads this`currentUser { DataKey(currentUser, NOTES_KEY) }

    function Notes(): (r: seq<Note>)
      reads this`currentUser, this`noteSlots
      ensures NotesKey() in noteSlots && noteSlots[NotesKey()].Parsed? ==> r == noteSlots[NotesKey()].value
      ensures !(NotesKey() in noteSlots && noteSlots[NotesKey()].Parsed?) ==> r == []
    {
      Load(noteSlots, NotesKey())
    }

    /** `getNotesByCategory`: no category, '' or '全部' gives every note, otherwise the notes of that category in order. */
    function NotesByCategory(category: Option<string>): (r: seq<Note>)
      reads this`currentUser, this`noteSlots
      ensures category.None? || category.value in {"", ALL} ==> r == Notes()
      ensures category.Some? && category.value !in {"", ALL} ==>
                forall t :: t in r <==> t in Notes() && t.category == category.value
    {
      if category.None? || category.value == "" || category.value == ALL then Notes()
      else WithKey(Notes(), NoteCategory, category.value)
    }

    /** `getNoteCategories`: every category in use, once each. */
    function NoteCategories(): (r: seq<string>)
      reads this`currentUser, this`noteSlots
      ensures forall c :: c in r <==> exists i :: 0 <= i < |Notes()| && Notes()[i].category == c
      ensures forall i, j :: 0 <= i < j < |r| ==> r[i] != r[j]
    {
      DistinctKeys(Notes(), NoteCategory)
    }

    method SaveNotes(notes: seq<Note>)
      modifies this`noteSlots
      ensures noteSlots == old(noteSlots)[NotesKey() := Parsed(notes)]
      ensures Notes() == notes
    {
      noteSlots := noteSlots[NotesKey() := Parsed(notes)];
    }

    /** Appends a new note owned by the signed-in user, created and updated at `now`; throws when nobody is signed in. */
    method AddNote(draft: NoteDraft, id: string, now: Timestamp) returns (r: Result<Note, StorageError>)
      modifies this`noteSlots
      ensures currentUser.None? ==> r == Failure(Unauthenticated) && noteSlots == old(noteSlots)
      ensures currentUser.Some? ==>
                && r == Success(Note(id, draft.title, draft.content, draft.category, draft.tags,
                                     now, now, currentUser.value.id))
                && r.value.createdAt == r.value.updatedAt
                && noteSlots == old(noteSlots)[NotesKey() := Parsed(old(Notes()) + [r.value])]
    {
      if currentUser.None? {
        return Failure(Unauthenticated);
      }
      var notes := Notes();
      var note := Note(id, draft.title, draft.content, draft.category, draft.tags, now, now, currentUser.value.id);
      notes := notes + [note];
      SaveNotes(notes);
      r := Success(note);
    }

    /**
     * Shallow-merges `updates` into the first note with that id and stamps
     * `updatedAt` with `now`, overriding any `updatedAt` in the patch;
     * `None` and no write when there is no such note.
     */
    method UpdateNote(id: string, updates: NotePatch, now: Timestamp) returns (r: Option<Note>)
      modifies this`noteSlots
      ensures var i := FindIndex(old(Notes()), NoteId, id);
        && (i == -1 ==> r == None && noteSlots == old(noteSlots))
        && (i != -1 ==> r == Some(MergeNote(old(Notes())[i], updates).(updatedAt := now))
                        && noteSlots == old(noteSlots)[NotesKey() := Parsed(old(Notes())[i := r.value])])
    {
      var notes := Notes();
      var index := FindIndex(notes, NoteId, id);
      if index == -1 {
        return None;
      }
      notes := notes[index := MergeNote(notes[index], updates).(updatedAt := now)];
      SaveNotes(notes);
      r := Some(notes[index]);
    }

    /** Removes every note with that id; `false` and no write when there is none. */
    method DeleteNote(id: string) returns (removed: bool)
      modifies this`noteSlots
      ensures removed <==> exists i :: 0 <= i < |old(Notes())| && old(Notes())[i].id == id
      ensures !removed ==> noteSlots == old(noteSlots)
      ensures removed ==> noteSlots == old(noteSlots)[NotesKey() := Parsed(WithoutKey(old(Notes()), NoteId, id))]
    {
      var notes := Notes();
      var filtered := WithoutKey(notes, NoteId, id);
      if |filtered| == |notes| {
        return false;
      }
      SaveNotes(filtered);
      removed := true;
    }

    // ---------------------------------------------------------------- websites

    function WebsitesKey(): string reads this`currentUser { DataKey(currentUser, WEBSITES_KEY) }

    function Websites(): (r: seq<Website>)
      reads this`currentUser, this`websiteSlots
      ensures WebsitesKey() in websiteSlots && websiteSlots[WebsitesKey()].Parsed? ==> r == websiteSlots[WebsitesKey()].value
      ensures !(WebsitesKey() in websiteSlots && websiteSlots[WebsitesKey()].Parsed?) ==> r == []
    {
      Load(websiteSlots, WebsitesKey())
    }

    /** `getUserWebsites(userId)`: the key is built from `userId` as given, with no guest fallback. */
    function UserWebsites(userId: string): (r: seq<Website>)
      reads this`currentUser, this`websiteSlots
      ensures currentUser.Some? && currentUser.value.id == userId && userId != "" ==> r == Websites()
      ensures userId == "" ==> r == Load(websiteSlots, "_" + WEBSITES_KEY)
    {
      assert userId == "" ==> userId + "_" + WEBSITES_KEY == "_" + WEBSITES_KEY;
      Load(websiteSlots, userId + "_" + WEBSITES_KEY)
    }

    /** `getWebsiteCategories`: every category in use, once each. */
    function WebsiteCategories(): (r: seq<string>)
      reads this`currentUser, this`websiteSlots
      ensures forall c :: c in r <==> exists i :: 0 <= i < |Websites()| && Websites()[i].category == c
      ensures forall i, j :: 0 <= i < j < |r| ==> r[i] != r[j]
    {
      DistinctKeys(Websites(), WebsiteCategory)
    }

    method SaveWebsites(websites: seq<Website>)
      modifies this`websiteSlots
      ensures websiteSlots == old(websiteSlots)[WebsitesKey() := Parsed(websites)]
      ensures Websites() == websites
    {
      websiteSlots := websiteSlots[WebsitesKey() := Parsed(websites)];
    }

    /**
     * Upsert: replaces the first website with the same id, or appends. The
     * record is stored as given, without stamping a user; this method does
     * not require a signed-in user.
     */
    method SaveWebsite(website: Website)
      modifies this`websiteSlots
      ensures var i := FindIndex(old(Websites()), WebsiteId, website.id);
        websiteSlots == old(websiteSlots)[WebsitesKey() :=
          Parsed(if i == -1 then old(Websites()) + [website] else old(Websites())[i := website])]
      ensures website in Websites()
    {
      var websites := Websites();
      var existingIndex := FindIndex(websites, WebsiteId, website.id);
      if existingIndex >= 0 {
        websites := websites[existingIndex := website];
        assert websites[existingIndex] == website;
      } else {
        websites := websites + [website];
        assert websites[|websites| - 1] == website;
      }
      SaveWebsites(websites);
    }

    /** Replaces the first website with the same id; writes nothing when there is none. */
    method UpdateWebsite(website: Website)
      modifies this`websiteSlots
      ensures FindIndex(old(Websites()), WebsiteId, website.id) == -1 ==> websiteSlots == old(websiteSlots)
      ensures FindIndex(old(Websites()), WebsiteId, website.id) != -1 ==>
                websiteSlots == old(websiteSlots)[WebsitesKey() := Parsed(ReplaceFirst(old(Websites()), website))]
    {
      var websites := Websites();
      var index := FindIndex(websites, WebsiteId, website.id);
      if index >= 0 {
        websites := websites[index := website];
        SaveWebsites(websites);
      }
    }

    /** Removes every website with that id; `false` and no write when there is none. */
    method DeleteWebsite(id: string) returns (removed: bool)
      modifies this`websiteSlots
      ensures removed <==> exists i :: 0 <= i < |old(Websites())| && old(Websites())[i].id == id
      ensures !removed ==> websiteSlots == old(websiteSlots)
      ensures removed ==> websiteSlots == old(websiteSlots)[WebsitesKey() := Parsed(WithoutKey(old(Websites()), WebsiteId, id))]
    {
      var websites := Websites();
      var filtered := WithoutKey(websites, WebsiteId, id);
      if |filtered| == |websites| {
        return false;
      }
      SaveWebsites(filtered);
      removed := true;
    }

    // ---------------------------------------------------------------- clearing

    /**
     * `clearUserData`: with a user signed in, removes the five collections of
     * the user's namespace; every other key is left alone. Without a user it
     * does nothing.
     */
    method ClearUserData()
      modifies this`todoSlots, this`documentSlots, this`folderSlots, this`noteSlots, this`websiteSlots
      ensures currentUser.None? ==>
                && todoSlots == old(todoSlots) && documentSlots == old(documentSlots)
                && folderSlots == old(folderSlots) && noteSlots == old(noteSlots)
                && websiteSlots == old(websiteSlots)
      ensures currentUser.Some? ==>
                && todoSlots == old(todoSlots) - {TodosKey()}
                && documentSlots == old(documentSlots) - {DocumentsKey()}
                && folderSlots == old(folderSlots) - {FoldersKey()}
                && noteSlots == old(noteSlots) - {NotesKey()}
                && websiteSlots == old(websiteSlots) - {WebsitesKey()}
      ensures currentUser.Some? ==>
                Todos() == [] && Documents() == [] && Folders() == [] && Notes() == [] && Websites() == []
    {
      if currentUser.None? {
        return;
      }
      todoSlots := todoSlots - {TodosKey()};
      documentSlots := documentSlots - {DocumentsKey()};
      noteSlots := noteSlots - {NotesKey()};
      folderSlots := folderSlots - {FoldersKey()};
      websiteSlots := websiteSlots - {WebsitesKey()};
    }

    /**
     * `clearAll`: removes the un-namespaced `todos`, `documents` and `notes`
     * keys (which the namespaced accessors never use), the account list and
     * the persisted session. The in-memory session is not reset, and no
     * namespaced collection is touched.
     */
    method ClearAll()
      modifies this`todoSlots, this`documentSlots, this`noteSlots, this`usersSlot, this`currentUserSlot
      ensures todoSlots == old(todoSlots) - {TODOS_KEY}
      ensures documentSlots == old(documentSlots) - {DOCUMENTS_KEY}
      ensures noteSlots == old(noteSlots) - {NOTES_KEY}
      ensures usersSlot == Absent && currentUserSlot == Absent
      ensures Users() == []
    {
      todoSlots := todoSlots - {TODOS_KEY};
      documentSlots := documentSlots - {DOCUMENTS_KEY};
      noteSlots := noteSlots - {NOTES_KEY};
      usersSlot := Absent;
      currentUserSlot := Absent;
    }
  }
}
