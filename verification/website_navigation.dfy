/**
 * The website-navigation screen: drag-and-drop reordering (move, renumber
 * `position` to the list index, persist each site), the category filter, the
 * handlers that add, edit and delete a site, and the URL normalisation used
 * when a site is opened.
 */
module WebsiteNavigation {
  import opened Wrappers
  import opened Collections
  import opened Records
  import opened Storage

  // ---------------------------------------------------------------- reordering

  /** `arrayMove(s, from, to)`: take the element at `from` out and insert it at `to`. */
  function ArrayMove<T>(s: seq<T>, from: nat, to: nat): (r: seq<T>)
    requires from < |s| && to < |s|
    ensures |r| == |s| && r[to] == s[from]
  {
    var rest := s[..from] + s[from + 1..];
    rest[..to] + [s[from]] + rest[to..]
  }

  /** The index `arrayMove(s, from, to)` takes its i-th element from. */
  function MoveSource(from: nat, to: nat, i: nat): nat {
    if i == to then from
    else if from < to && from <= i < to then i + 1
    else if to < from && to < i <= from then i - 1
    else i
  }

  /** Where each element lands: the moved one at `to`, those in between shift by one towards `from`, the rest stay. */
  lemma ArrayMoveAt<T>(s: seq<T>, from: nat, to: nat, i: nat)
    requires from < |s| && to < |s| && i < |s|
    ensures MoveSource(from, to, i) < |s|
    ensures ArrayMove(s, from, to)[i] == s[MoveSource(from, to, i)]
  {
  }

  /** Distinct positions take their elements from distinct positions. */
  lemma MoveSourceInjective(from: nat, to: nat, i: nat, j: nat)
    requires i != j
    ensures MoveSource(from, to, i) != MoveSource(from, to, j)
  {
  }

  /** Moving never loses or duplicates an element. */
  lemma ArrayMovePermutes<T>(s: seq<T>, from: nat, to: nat)
    requires from < |s| && to < |s|
    ensures multiset(ArrayMove(s, from, to)) == multiset(s)
  {
    var rest := s[..from] + s[from + 1..];
    calc {
      multiset(ArrayMove(s, from, to));
      multiset(rest[..to] + [s[from]] + rest[to..]);
      multiset(rest[..to]) + multiset([s[from]]) + multiset(rest[to..]);
      { assert rest == rest[..to] + rest[to..]; }
      multiset(rest) + multiset([s[from]]);
      multiset(s[..from]) + multiset(s[from + 1..]) + multiset([s[from]]);
      { assert s == s[..from] + [s[from]] + s[from + 1..]; }
      multiset(s);
    }
  }

  /** Moving back undoes a move. */
  lemma ArrayMoveInverse<T>(s: seq<T>, from: nat, to: nat)
    requires from < |s| && to < |s|
    ensures ArrayMove(ArrayMove(s, from, to), to, from) == s
  {
    var moved := ArrayMove(s, from, to);
    forall i | 0 <= i < |s|
      ensures ArrayMove(moved, to, from)[i] == s[i]
    {
      ArrayMoveAt(moved, to, from, i);
      ArrayMoveAt(s, from, to, MoveSource(to, from, i));
    }
  }

  /** Moving commutes with mapping every element. */
  lemma ArrayMoveMap<T, U>(s: seq<T>, f: T -> U, from: nat, to: nat)
    requires from < |s| && to < |s|
    ensures MapSeq(ArrayMove(s, from, to), f) == ArrayMove(MapSeq(s, f), from, to)
  {
    forall i | 0 <= i < |s|
      ensures MapSeq(ArrayMove(s, from, to), f)[i] == ArrayMove(MapSeq(s, f), from, to)[i]
    {
      ArrayMoveAt(s, from, to, i);
      ArrayMoveAt(MapSeq(s, f), from, to, i);
    }
  }

  /** `position` equals the list index for every site. */
  predicate Dense(sites: seq<Website>) {
    forall i :: 0 <= i < |sites| ==> sites[i].position == i
  }

  /** `items.map((item, index) => ({ ...item, position: index }))`. */
  function Renumber(sites: seq<Website>): (r: seq<Website>)
    ensures |r| == |sites| && Dense(r)
    ensures forall i :: 0 <= i < |sites| ==> r[i] == sites[i].(position := r[i].position)
  {
    seq(|sites|, i requires 0 <= i < |sites| => sites[i].(position := i))
  }

  /** A site with its position erased: what a reorder must preserve. */
  function Unpositioned(w: Website): Website {
    w.(position := 0)
  }

  /**
   * The list after dropping `activeId` on `overId`: the dragged site moves to
   * the drop target's index and every site is renumbered. Dropping on itself
   * changes nothing; a drop on nothing (`over` is null) throws before any
   * change. Both ids come from the list, as the sortable context only reports
   * its own items; duplicate ids resolve to the first match.
   */
  function Reorder(items: seq<Website>, activeId: string, overId: Option<string>): (r: seq<Website>)
    requires FindIndex(items, WebsiteId, activeId) != -1
    requires overId.Some? ==> FindIndex(items, WebsiteId, overId.value) != -1
    ensures |r| == |items|
    ensures overId.None? || overId.value == activeId ==> r == items
    ensures overId.Some? && overId.value != activeId ==>
              && Dense(r)
              && r[FindIndex(items, WebsiteId, overId.value)]
                 == items[FindIndex(items, WebsiteId, activeId)].(position := FindIndex(items, WebsiteId, overId.value))
  {
    if overId.None? || overId.value == activeId then items
    else
      var oldIndex := FindIndex(items, WebsiteId, activeId);
      var newIndex := FindIndex(items, WebsiteId, overId.value);
      Renumber(ArrayMove(items, oldIndex, newIndex))
  }

  /** A reorder keeps the same sites, apart from their positions. */
  lemma ReorderPermutes(items: seq<Website>, activeId: string, overId: Option<string>)
    requires FindIndex(items, WebsiteId, activeId) != -1
    requires overId.Some? ==> FindIndex(items, WebsiteId, overId.value) != -1
    ensures multiset(MapSeq(Reorder(items, activeId, overId), Unpositioned)) == multiset(MapSeq(items, Unpositioned))
  {
    if overId.Some? && overId.value != activeId {
      var oldIndex := FindIndex(items, WebsiteId, activeId);
      var newIndex := FindIndex(items, WebsiteId, overId.value);
      var moved := ArrayMove(items, oldIndex, newIndex);
      assert MapSeq(Renumber(moved), Unpositioned) == MapSeq(moved, Unpositioned);
      ArrayMoveMap(items, Unpositioned, oldIndex, newIndex);
      ArrayMovePermutes(MapSeq(items, Unpositioned), oldIndex, newIndex);
    }
  }

  /** Persisting one site: `updateWebsite` replaces the first stored site with its id, and writes nothing when there is none. */
  function PersistOne(slots: map<string, Slot<seq<Website>>>, key: string, w: Website): (r: map<string, Slot<seq<Website>>>)
    ensures w.id !in MapSeq(Load(slots, key), WebsiteId) ==> r == slots
    ensures w.id in MapSeq(Load(slots, key), WebsiteId) ==> w in Load(r, key)
    ensures MapSeq(Load(r, key), WebsiteId) == MapSeq(Load(slots, key), WebsiteId)
    ensures forall k :: k != key ==> (k in r <==> k in slots) && (k in slots ==> r[k] == slots[k])
  {
    var stored := Load(slots, key);
    var i := FindIndex(stored, WebsiteId, w.id);
    if i == -1 then
      assert w.id !in MapSeq(stored, WebsiteId) by {
        forall j | 0 <= j < |stored| ensures MapSeq(stored, WebsiteId)[j] != w.id { }
      }
      slots
    else
      assert MapSeq(stored, WebsiteId)[i] == w.id;
      assert ReplaceFirst(stored, w)[i] == w;
      slots[key := Parsed(ReplaceFirst(stored, w))]
  }

  /** Persisting the sites one after another, in list order. */
  function PersistAll(slots: map<string, Slot<seq<Website>>>, key: string, sites: seq<Website>): (r: map<string, Slot<seq<Website>>>)
    ensures forall k :: k != key ==> (k in r <==> k in slots)
    ensures forall k :: k != key && k in slots ==> r[k] == slots[k]
    ensures sites == [] ==> r == slots
  {
    if |sites| == 0 then slots
    else PersistOne(PersistAll(slots, key, sites[..|sites| - 1]), key, sites[|sites| - 1])
  }

  /** Persisting one more site of a list is one more `updateWebsite`. */
  lemma PersistAllPrefix(slots: map<string, Slot<seq<Website>>>, key: string, sites: seq<Website>, k: nat)
    requires k < |sites|
    ensures PersistAll(slots, key, sites[..k + 1]) == PersistOne(PersistAll(slots, key, sites[..k]), key, sites[k])
  {
    assert sites[..k + 1][..k] == sites[..k];
  }

  /** Persisting touches no other key and keeps the stored sites' ids in their stored order. */
  lemma {:induction false} PersistAllKeepsIds(slots: map<string, Slot<seq<Website>>>, key: string, sites: seq<Website>)
    ensures MapSeq(Load(PersistAll(slots, key, sites), key), WebsiteId) == MapSeq(Load(slots, key), WebsiteId)
    ensures forall k :: k != key ==> Load(PersistAll(slots, key, sites), k) == Load(slots, k)
  {
    if |sites| > 0 {
      PersistAllKeepsIds(slots, key, sites[..|sites| - 1]);
    }
  }

  predicate UniqueIds(sites: seq<Website>) {
    forall i, j :: 0 <= i < j < |sites| ==> sites[i].id != sites[j].id
  }

  /** Uniqueness of ids depends only on the sequence of ids. */
  lemma UniqueIdsByIds(a: seq<Website>, b: seq<Website>)
    requires MapSeq(a, WebsiteId) == MapSeq(b, WebsiteId)
    ensures UniqueIds(a) == UniqueIds(b)
  {
    assert forall i :: 0 <= i < |a| ==> a[i].id == MapSeq(a, WebsiteId)[i];
    assert forall i :: 0 <= i < |b| ==> b[i].id == MapSeq(b, WebsiteId)[i];
  }

  /** One persisting step on a list with unique ids that holds the site's id: the site replaces its namesake, nothing else changes. */
  lemma ReplaceFirstStores(stored: seq<Website>, w: Website)
    requires UniqueIds(stored) && w.id in MapSeq(stored, WebsiteId)
    ensures w in ReplaceFirst(stored, w)
    ensures forall x :: x in stored && x.id != w.id ==> x in ReplaceFirst(stored, w)
  {
    var ids := MapSeq(stored, WebsiteId);
    var m :| 0 <= m < |ids| && ids[m] == w.id;
    assert stored[m].id == w.id;
    var i := FindIndex(stored, WebsiteId, w.id);
    var after := stored[i := w];
    forall x | x in stored && x.id != w.id
      ensures x in after
    {
      var j :| 0 <= j < |stored| && stored[j] == x;
      assert after[j] == x;
    }
    assert after[i] == w;
  }

  /** Persisting a site whose id is stored replaces the first stored site with that id. */
  lemma PersistOneFound(slots: map<string, Slot<seq<Website>>>, key: string, w: Website)
    requires w.id in MapSeq(Load(slots, key), WebsiteId)
    ensures Load(PersistOne(slots, key, w), key) == ReplaceFirst(Load(slots, key), w)
  {
    var stored := Load(slots, key);
    var m :| 0 <= m < |stored| && MapSeq(stored, WebsiteId)[m] == w.id;
    assert stored[m].id == w.id;
  }

  /**
   * When stored ids are unique, the persisted sites have distinct ids and all
   * of them are stored, every persisted site ends up stored as given (so a
   * reload, which sorts by position, shows the new order).
   */
  lemma {:induction false} PersistAllStores(slots: map<string, Slot<seq<Website>>>, key: string, sites: seq<Website>)
    requires UniqueIds(Load(slots, key)) && UniqueIds(sites)
    requires forall k :: 0 <= k < |sites| ==> sites[k].id in MapSeq(Load(slots, key), WebsiteId)
    ensures forall k :: 0 <= k < |sites| ==> sites[k] in Load(PersistAll(slots, key, sites), key)
  {
    if |sites| > 0 {
      var n := |sites| - 1;
      var init, last := sites[..n], sites[n];
      assert sites == init + [last];
      SplitLastSite(Load(slots, key), sites);
      PersistAllStores(slots, key, init);
      PersistAllStep(slots, key, init, last);
      var after := Load(PersistAll(slots, key, init + [last]), key);
      forall k | 0 <= k < |sites|
        ensures sites[k] in after
      {
        if k < n {
          assert sites[k] == init[k];
        }
      }
    }
  }

  /** Dropping the last of distinct, stored sites leaves distinct, stored sites, none sharing the last one's id. */
  lemma SplitLastSite(stored: seq<Website>, sites: seq<Website>)
    requires |sites| > 0 && UniqueIds(sites)
    requires forall k :: 0 <= k < |sites| ==> sites[k].id in MapSeq(stored, WebsiteId)
    ensures var init := sites[..|sites| - 1];
      && UniqueIds(init)
      && (forall k :: 0 <= k < |init| ==> init[k].id in MapSeq(stored, WebsiteId))
      && (forall k :: 0 <= k < |init| ==> init[k].id != sites[|sites| - 1].id)
      && sites[|sites| - 1].id in MapSeq(stored, WebsiteId)
  {
  }

  /** The inductive step of `PersistAllStores`: persisting one more site keeps the earlier ones stored. */
  lemma PersistAllStep(slots: map<string, Slot<seq<Website>>>, key: string, init: seq<Website>, last: Website)
    requires UniqueIds(Load(slots, key))
    requires last.id in MapSeq(Load(slots, key), WebsiteId)
    requires forall k :: 0 <= k < |init| ==> init[k].id != last.id
    requires forall k :: 0 <= k < |init| ==> init[k] in Load(PersistAll(slots, key, init), key)
    ensures forall k :: 0 <= k < |init| ==> init[k] in Load(PersistAll(slots, key, init + [last]), key)
    ensures last in Load(PersistAll(slots, key, init + [last]), key)
  {
    PersistAllKeepsIds(slots, key, init);
    var before := PersistAll(slots, key, init);
    var stored := Load(before, key);
    UniqueIdsByIds(stored, Load(slots, key));
    PersistOneFound(before, key, last);
    ReplaceFirstStores(stored, last);
    assert (init + [last])[..|init|] == init;
  }

  /** A move keeps ids unique and draws every id from the original list. */
  lemma ArrayMoveIds(items: seq<Website>, from: nat, to: nat)
    requires from < |items| && to < |items| && UniqueIds(items)
    ensures UniqueIds(ArrayMove(items, from, to))
    ensures forall k :: 0 <= k < |items| ==> ArrayMove(items, from, to)[k].id in MapSeq(items, WebsiteId)
  {
    var moved := ArrayMove(items, from, to);
    forall i, j | 0 <= i < j < |moved|
      ensures moved[i].id != moved[j].id
    {
      ArrayMoveAt(items, from, to, i);
      ArrayMoveAt(items, from, to, j);
      MoveSourceInjective(from, to, i, j);
    }
    forall k | 0 <= k < |items|
      ensures moved[k].id in MapSeq(items, WebsiteId)
    {
      ArrayMoveAt(items, from, to, k);
      assert MapSeq(items, WebsiteId)[MoveSource(from, to, k)] == moved[k].id;
    }
  }

  /** Renumbering changes positions only, so the ids stay as they were, in order. */
  lemma RenumberIds(sites: seq<Website>)
    ensures MapSeq(Renumber(sites), WebsiteId) == MapSeq(sites, WebsiteId)
  {
    var r := Renumber(sites);
    assert forall i :: 0 <= i < |sites| ==> MapSeq(r, WebsiteId)[i] == r[i].id == sites[i].id;
  }

  /** A reorder keeps ids unique and draws every site's id from the original list. */
  lemma ReorderIds(items: seq<Website>, activeId: string, overId: Option<string>)
    requires FindIndex(items, WebsiteId, activeId) != -1
    requires overId.Some? ==> FindIndex(items, WebsiteId, overId.value) != -1
    requires UniqueIds(items)
    ensures UniqueIds(Reorder(items, activeId, overId))
    ensures forall k :: 0 <= k < |items| ==> Reorder(items, activeId, overId)[k].id in MapSeq(items, WebsiteId)
  {
    if overId.Some? && overId.value != activeId {
      var from := FindIndex(items, WebsiteId, activeId);
      var to := FindIndex(items, WebsiteId, overId.value);
      var moved := ArrayMove(items, from, to);
      var r := Reorder(items, activeId, overId);
      assert r == Renumber(moved);
      ArrayMoveIds(items, from, to);
      RenumberIds(moved);
      UniqueIdsByIds(r, moved);
      forall k | 0 <= k < |items|
        ensures r[k].id in MapSeq(items, WebsiteId)
      {
        assert r[k].id == MapSeq(r, WebsiteId)[k] == moved[k].id;
      }
    } else {
      forall k | 0 <= k < |items|
        ensures items[k].id in MapSeq(items, WebsiteId)
      {
        assert MapSeq(items, WebsiteId)[k] == items[k].id;
      }
    }
  }

  /** Drawing ids from a list whose ids are all drawn from a third draws them from the third. */
  lemma IdsDrawnFrom(a: seq<Website>, b: seq<Website>, c: seq<Website>)
    requires forall k :: 0 <= k < |a| ==> a[k].id in MapSeq(b, WebsiteId)
    requires forall k :: 0 <= k < |b| ==> b[k].id in MapSeq(c, WebsiteId)
    ensures forall k :: 0 <= k < |a| ==> a[k].id in MapSeq(c, WebsiteId)
  {
    forall k | 0 <= k < |a|
      ensures a[k].id in MapSeq(c, WebsiteId)
    {
      var ids := MapSeq(b, WebsiteId);
      var m :| 0 <= m < |ids| && ids[m] == a[k].id;
      assert b[m].id == a[k].id;
    }
  }

  /**
   * After a drag by a signed-in user, when every listed site's id is stored
   * and ids are unique on screen and in the store, every reordered site (with
   * its new position) is stored, whatever order the store keeps them in.
   */
  lemma DragStoresNewOrder(items: seq<Website>, activeId: string, overId: Option<string>,
                           slots: map<string, Slot<seq<Website>>>, key: string)
    requires FindIndex(items, WebsiteId, activeId) != -1
    requires overId.Some? ==> FindIndex(items, WebsiteId, overId.value) != -1
    requires UniqueIds(items) && UniqueIds(Load(slots, key))
    requires forall k :: 0 <= k < |items| ==> items[k].id in MapSeq(Load(slots, key), WebsiteId)
    ensures var r := Reorder(items, activeId, overId);
      forall k :: 0 <= k < |r| ==> r[k] in Load(PersistAll(slots, key, r), key)
  {
    var r := Reorder(items, activeId, overId);
    ReorderIds(items, activeId, overId);
    IdsDrawnFrom(r, items, Load(slots, key));
    PersistAllStores(slots, key, r);
  }

  /**
   * `handleDragEnd`: reorders the list and, when a user is signed in, calls
   * `updateWebsite` for every site of the new list in order.
   */
  method DragEnd(storage: StorageService, items: seq<Website>, activeId: string, overId: Option<string>)
    returns (newItems: seq<Website>)
    requires FindIndex(items, WebsiteId, activeId) != -1
    requires overId.Some? ==> FindIndex(items, WebsiteId, overId.value) != -1
    modifies storage`websiteSlots
    ensures newItems == Reorder(items, activeId, overId)
    ensures overId.None? || overId.value == activeId || storage.currentUser.None? ==>
              storage.websiteSlots == old(storage.websiteSlots)
    ensures overId.Some? && overId.value != activeId && storage.currentUser.Some? ==>
              storage.websiteSlots == PersistAll(old(storage.websiteSlots), storage.WebsitesKey(), newItems)
  {
    newItems := Reorder(items, activeId, overId);
    if overId.None? || overId.value == activeId || storage.currentUser.None? {
      return;
    }
    PersistEach(storage, newItems);
  }

  /** `sites.forEach(site => storageService.updateWebsite(site))`. */
  method PersistEach(storage: StorageService, sites: seq<Website>)
    modifies storage`websiteSlots
    ensures storage.websiteSlots == PersistAll(old(storage.websiteSlots), storage.WebsitesKey(), sites)
  {
    var key := storage.WebsitesKey();
    for k := 0 to |sites|
      invariant storage.websiteSlots == PersistAll(old(storage.websiteSlots), key, sites[..k])
    {
      ghost var before := storage.websiteSlots;
      storage.UpdateWebsite(sites[k]);
      assert storage.websiteSlots == PersistOne(before, key, sites[k]);
      PersistAllPrefix(old(storage.websiteSlots), key, sites, k);
    }
    assert sites[..|sites|] == sites;
  }

  // ---------------------------------------------------------------- filtering

  /** `filterWebsites`: all sites for '全部', otherwise the sites of the selected category, in order. */
  function FilterWebsites(websites: seq<Website>, category: string): (r: seq<Website>)
    ensures category == ALL ==> r == websites
    ensures category != ALL ==> forall w :: w in r <==> w in websites && w.category == category
    ensures |r| <= |websites|
  {
    if category == ALL then websites else WithKey(websites, WebsiteCategory, category)
  }

  // ---------------------------------------------------------------- adding, editing, deleting

  /** `values.icon || fallback`: an absent or empty icon falls back. */
  function IconOr(given: Option<string>, fallback: string): (icon: string)
    ensures given.Some? && given.value != "" ==> icon == given.value
    ensures given.None? || given.value == "" ==> icon == fallback
  {
    if given.Some? && given.value != "" then given.value else fallback
  }

  /** A new site, positioned after the `count` sites already listed. */
  function NewWebsite(id: string, name: string, url: string, icon: string, category: string,
                      description: Option<string>, count: nat, now: Timestamp, userId: string): (w: Website)
    ensures w.position == count
  {
    Website(id, name, url, icon, category, description, count, now, userId)
  }

  /** Appending a site positioned at the list's length keeps positions equal to indices. */
  lemma AppendKeepsDense(websites: seq<Website>, w: Website)
    requires Dense(websites) && w.position == |websites|
    ensures Dense(websites + [w])
  {
  }

  /**
   * Deleting does not renumber: after deleting the first of three densely
   * numbered sites, the next added site takes the position the last one
   * still has.
   */
  lemma PositionCollisionAfterDelete(websites: seq<Website>, w: Website)
    requires |websites| == 3 && Dense(websites) && UniqueIds(websites)
    requires w.position == |WithoutKey(websites, WebsiteId, websites[0].id)|
    ensures var rest := WithoutKey(websites, WebsiteId, websites[0].id);
      rest == websites[1..] && !Dense(rest) && w.position == rest[|rest| - 1].position
  {
    var id := websites[0].id;
    var p := (x: Website) => WebsiteId(x) != id;
    assert websites == [websites[0]] + websites[1..];
    KeepIfAppend([websites[0]], websites[1..], p);
    assert KeepIf([websites[0]], p) == [];
    assert KeepIf(websites[1..], p) == websites[1..];
  }

  datatype AddError = NotSignedIn

  /**
   * `handleAddWebsite`: needs a signed-in user; the icon is the entered one
   * or else the site's favicon URL (computed by the caller); the new site is
   * saved and appended to the list with position `websites.length`.
   */
  method AddWebsite(storage: StorageService, websites: seq<Website>, name: string, url: string,
                    icon: Option<string>, favicon: string, category: string, description: Option<string>,
                    id: string, now: Timestamp)
    returns (r: Result<seq<Website>, AddError>)
    modifies storage`websiteSlots
    ensures storage.currentUser.None? ==> r == Failure(NotSignedIn) && storage.websiteSlots == old(storage.websiteSlots)
    ensures storage.currentUser.Some? ==>
              && var w := NewWebsite(id, name, url, IconOr(icon, favicon), category, description, |websites|, now,
                                     storage.currentUser.value.id);
              && r == Success(websites + [w])
              && var i := FindIndex(old(storage.Websites()), WebsiteId, id);
              && storage.websiteSlots == old(storage.websiteSlots)[storage.WebsitesKey() :=
                   Parsed(if i == -1 then old(storage.Websites()) + [w] else old(storage.Websites())[i := w])]
              && w in storage.Websites()
              && (Dense(websites) ==> Dense(r.value))
  {
    if storage.currentUser.None? {
      return Failure(NotSignedIn);
    }
    var w := NewWebsite(id, name, url, IconOr(icon, favicon), category, description, |websites|, now,
                        storage.currentUser.value.id);
    storage.SaveWebsite(w);
    r := Success(websites + [w]);
  }

  /** `handleAddPresetWebsite`: like adding a site, with the preset's own icon. */
  method AddPresetWebsite(storage: StorageService, websites: seq<Website>, name: string, url: string,
                          icon: string, category: string, description: Option<string>, id: string, now: Timestamp)
    returns (r: Result<seq<Website>, AddError>)
    modifies storage`websiteSlots
    ensures storage.currentUser.None? ==> r == Failure(NotSignedIn) && storage.websiteSlots == old(storage.websiteSlots)
    ensures storage.currentUser.Some? ==>
              && var w := NewWebsite(id, name, url, icon, category, description, |websites|, now,
                                     storage.currentUser.value.id);
              && r == Success(websites + [w])
              && var i := FindIndex(old(storage.Websites()), WebsiteId, id);
              && storage.websiteSlots == old(storage.websiteSlots)[storage.WebsitesKey() :=
                   Parsed(if i == -1 then old(storage.Websites()) + [w] else old(storage.Websites())[i := w])]
              && w in storage.Websites()
              && (Dense(websites) ==> Dense(r.value))
  {
    if storage.currentUser.None? {
      return Failure(NotSignedIn);
    }
    var w := NewWebsite(id, name, url, icon, category, description, |websites|, now, storage.currentUser.value.id);
    storage.SaveWebsite(w);
    r := Success(websites + [w]);
  }

  /**
   * The site `handleUpdateWebsite` builds: the form's name, URL, category and
   * description over the edited site, the entered icon if non-empty, and the
   * edited site's id, position, creation time and owner.
   */
  function EditedWebsite(editing: Website, name: string, url: string, icon: Option<string>,
                         category: string, description: Option<string>): (w: Website)
    ensures w.id == editing.id && w.position == editing.position
    ensures w.createdAt == editing.createdAt && w.userId == editing.userId
    ensures w.name == name && w.url == url && w.category == category && w.description == description
    ensures w.icon == IconOr(icon, editing.icon)
  {
    editing.(name := name, url := url, icon := IconOr(icon, editing.icon), category := category,
             description := description)
  }

  /** `websites.map(site => site.id === w.id ? w : site)`: every listed site with that id is replaced. */
  function ReplaceById(websites: seq<Website>, w: Website): (r: seq<Website>)
    ensures |r| == |websites|
    ensures forall i :: 0 <= i < |r| ==> r[i] == if websites[i].id == w.id then w else websites[i]
  {
    MapSeq(websites, (site: Website) => if site.id == w.id then w else site)
  }

  /** Editing a listed site keeps the list densely numbered when ids are unique. */
  lemma EditKeepsDense(websites: seq<Website>, i: nat, name: string, url: string, icon: Option<string>,
                       category: string, description: Option<string>)
    requires Dense(websites) && UniqueIds(websites) && i < |websites|
    ensures Dense(ReplaceById(websites, EditedWebsite(websites[i], name, url, icon, category, description)))
  {
  }

  /**
   * `handleUpdateWebsite`: with a site being edited, stores the edited site
   * (replacing the first stored match) and replaces it in the list; without
   * one, nothing happens.
   */
  method UpdateWebsiteHandler(storage: StorageService, websites: seq<Website>, editing: Option<Website>,
                              name: string, url: string, icon: Option<string>, category: string,
                              description: Option<string>)
    returns (r: seq<Website>)
    modifies storage`websiteSlots
    ensures editing.None? ==> r == websites && storage.websiteSlots == old(storage.websiteSlots)
    ensures editing.Some? ==>
              && var w := EditedWebsite(editing.value, name, url, icon, category, description);
              && r == ReplaceById(websites, w)
              && (FindIndex(old(storage.Websites()), WebsiteId, w.id) != -1 ==>
                    storage.websiteSlots == old(storage.websiteSlots)[storage.WebsitesKey() :=
                      Parsed(ReplaceFirst(old(storage.Websites()), w))])
              && (FindIndex(old(storage.Websites()), WebsiteId, w.id) == -1 ==>
                    storage.websiteSlots == old(storage.websiteSlots))
  {
    if editing.None? {
      return websites;
    }
    var w := EditedWebsite(editing.value, name, url, icon, category, description);
    storage.UpdateWebsite(w);
    r := ReplaceById(websites, w);
  }

  /** `handleDeleteWebsite`: deletes from the store and drops every listed site with that id. */
  method DeleteWebsiteHandler(storage: StorageService, websites: seq<Website>, id: string)
    returns (r: seq<Website>)
    modifies storage`websiteSlots
    ensures r == WithoutKey(websites, WebsiteId, id)
    ensures FindIndex(old(storage.Websites()), WebsiteId, id) == -1 ==> storage.websiteSlots == old(storage.websiteSlots)
    ensures FindIndex(old(storage.Websites()), WebsiteId, id) != -1 ==>
              storage.websiteSlots == old(storage.websiteSlots)[storage.WebsitesKey() :=
                Parsed(WithoutKey(old(storage.Websites()), WebsiteId, id))]
    ensures forall w :: w in storage.Websites() ==> w.id != id
    ensures forall w :: w in old(storage.Websites()) && w.id != id ==> w in storage.Websites()
  {
    var removed := storage.DeleteWebsite(id);
    r := WithoutKey(websites, WebsiteId, id);
  }

  // ---------------------------------------------------------------- opening

  predicate HasScheme(url: string): (b: bool)
    ensures b ==> |url| >= 7 && url[..4] == "http" && (url[4] == ':' || url[4] == 's')
  {
    "http://" <= url || "https://" <= url
  }

  /** `openWebsite`: a URL without an http or https scheme gets `https://` in front. */
  function NormalizeUrl(url: string): (r: string)
    ensures HasScheme(r)
    ensures HasScheme(url) ==> r == url
    ensures !HasScheme(url) ==> r == "https://" + url
    ensures |url| <= |r| && r[|r| - |url|..] == url
  {
    if HasScheme(url) then url else "https://" + url
  }

  /** Normalising twice is normalising once. */
  lemma NormalizeIdempotent(url: string)
    ensures NormalizeUrl(NormalizeUrl(url)) == NormalizeUrl(url)
  {
  }
}
