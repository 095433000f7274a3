/** MediaServer2Source, the consumer side: icons, the tree fed by retrieved
    batches, row activation, import into the library, activation and removal. */
module Source {
  import opened Values
  import opened MediaObjects
  import opened Retrieval
  import opened Worker
  import opened TreeStores

  // ----- Icons -----

  const MEDIA_OBJECT_TYPE_ICON_MAP: map<string, string> :=
    map[CONTAINER_TYPE := "folder", AUDIO_TYPE := "media-audio", VIDEO_TYPE := "video"]

  /** `_get_icon_for_media_object`, by icon name: the three known types have an
      icon, any other type has none. */
  function IconName(objType: string): (r: Option<string>)
    ensures objType == CONTAINER_TYPE ==> r == Some("folder")
    ensures objType == AUDIO_TYPE ==> r == Some("media-audio")
    ensures objType == VIDEO_TYPE ==> r == Some("video")
    ensures objType != CONTAINER_TYPE && objType != AUDIO_TYPE && objType != VIDEO_TYPE ==> r == None
  {
    if objType in MEDIA_OBJECT_TYPE_ICON_MAP then Some(MEDIA_OBJECT_TYPE_ICON_MAP[objType]) else None
  }

  // ----- Feeding the tree -----

  /** The row `_media_retrieved_cb` inserts for one object. */
  function RowFor(m: MediaObject): Row
  {
    Row(m.name, IconName(m.objType), m)
  }

  /** The store after inserting every object of a batch, in batch order, at
      position 0 under its own parent. */
  function InsertBatch(t: TreeStore, batch: seq<MediaObject>): (r: TreeStore)
    ensures r.next == t.next + |batch|
    ensures Valid(t) ==> Valid(r)
    decreases |batch|
  {
    if batch == [] then t
    else
      InsertKeepsValid(t, batch[0].parentIter, RowFor(batch[0]));
      InsertBatch(Insert(t, batch[0].parentIter, RowFor(batch[0])), batch[1..])
  }

  /** The store after delivering several batches, in order. */
  function InsertBatches(t: TreeStore, batches: seq<seq<MediaObject>>): (r: TreeStore)
    ensures Valid(t) ==> Valid(r)
    decreases |batches|
  {
    if batches == [] then t else InsertBatches(InsertBatch(t, batches[0]), batches[1..])
  }

  /** Delivering batches one group after another is delivering them all in order. */
  lemma {:induction false} InsertBatchesAppend(t: TreeStore, a: seq<seq<MediaObject>>, b: seq<seq<MediaObject>>)
    ensures InsertBatches(t, a + b) == InsertBatches(InsertBatches(t, a), b)
    decreases |a|
  {
    if a != [] {
      assert (a + b)[0] == a[0];
      assert (a + b)[1..] == a[1..] + b;
      InsertBatchesAppend(InsertBatch(t, a[0]), a[1..], b);
    } else {
      assert a + b == b;
    }
  }

  /** The parents expanded while delivering several batches. */
  function ParentsOfAll(batches: seq<seq<MediaObject>>): set<TreeIter>
  {
    if batches == [] then {} else ParentsOf(batches[0]) + ParentsOfAll(batches[1..])
  }

  /** The parents that `_media_retrieved_cb` expands: those of objects that have one. */
  function ParentsOf(batch: seq<MediaObject>): set<TreeIter>
  {
    if batch == [] then {}
    else
      (if batch[0].parentIter.Some? then {batch[0].parentIter.value} else {}) + ParentsOf(batch[1..])
  }

  /** Peeling the object at `i` off the rest of a batch. */
  lemma InsertBatchStep(t: TreeStore, batch: seq<MediaObject>, i: nat)
    requires i < |batch|
    ensures InsertBatch(t, batch[i..]) == InsertBatch(Insert(t, batch[i].parentIter, RowFor(batch[i])), batch[i + 1..])
    ensures ParentsOf(batch[i..]) ==
            (if batch[i].parentIter.Some? then {batch[i].parentIter.value} else {}) + ParentsOf(batch[i + 1..])
  {
    assert batch[i..][0] == batch[i];
    assert batch[i..][1..] == batch[i + 1..];
  }

  /** The expanded rows are exactly the parents named in the batch. */
  lemma {:induction false} ParentsOfMembers(batch: seq<MediaObject>, p: TreeIter)
    ensures p in ParentsOf(batch) <==> exists k :: 0 <= k < |batch| && batch[k].parentIter == Some(p)
  {
    if batch != [] {
      ParentsOfMembers(batch[1..], p);
      if p in ParentsOf(batch[1..]) {
        var k :| 0 <= k < |batch[1..]| && batch[1..][k].parentIter == Some(p);
        assert batch[k + 1].parentIter == Some(p);
      }
      if exists k :: 0 <= k < |batch| && batch[k].parentIter == Some(p) {
        var k :| 0 <= k < |batch| && batch[k].parentIter == Some(p);
        if k > 0 {
          assert batch[1..][k - 1].parentIter == Some(p);
        }
      }
    }
  }

  function Reverse<T>(s: seq<T>): seq<T>
  {
    if s == [] then [] else Reverse(s[1..]) + [s[0]]
  }

  /** A batch whose objects share one parent appears under that parent in
      reverse order, above the children already there. */
  lemma {:induction false} InsertBatchReverses(t: TreeStore, batch: seq<MediaObject>, p: Option<TreeIter>)
    requires Valid(t)
    requires forall k :: 0 <= k < |batch| ==> batch[k].parentIter == p
    ensures ChildObjects(InsertBatch(t, batch), p) == Reverse(batch) + ChildObjects(t, p)
    decreases |batch|
  {
    if batch != [] {
      var t1 := Insert(t, p, RowFor(batch[0]));
      assert InsertBatch(t, batch) == InsertBatch(t1, batch[1..]);
      InsertChildObjects(t, p, RowFor(batch[0]), p);
      assert forall k :: 0 <= k < |batch[1..]| ==> batch[1..][k] == batch[k + 1];
      InsertBatchReverses(t1, batch[1..], p);
      SeqAssoc(Reverse(batch[1..]), [batch[0]], ChildObjects(t, p));
    }
  }

  /** Inserting a batch under one parent leaves every other parent's children as
      they were. */
  lemma {:induction false} InsertBatchKeepsOthers(t: TreeStore, batch: seq<MediaObject>, p: Option<TreeIter>, q: Option<TreeIter>)
    requires Valid(t) && q != p
    requires forall k :: 0 <= k < |batch| ==> batch[k].parentIter == p
    ensures ChildObjects(InsertBatch(t, batch), q) == ChildObjects(t, q)
    decreases |batch|
  {
    if batch != [] {
      var t1 := Insert(t, p, RowFor(batch[0]));
      assert InsertBatch(t, batch) == InsertBatch(t1, batch[1..]);
      InsertChildObjects(t, p, RowFor(batch[0]), q);
      assert forall k :: 0 <= k < |batch[1..]| ==> batch[1..][k] == batch[k + 1];
      InsertBatchKeepsOthers(t1, batch[1..], p, q);
    }
  }

  /** Delivered to the tree, an expansion's children appear under the expanded
      row in reverse listing order, and the roots of a discovery at the top level
      in reverse service order. */
  lemma BatchesShownReversed(bus: Bus, t: TreeStore, m: MediaObject, it: TreeIter)
    requires Valid(t)
    ensures ContainerChildren(bus, m, Some(it)).Some? ==>
              var b := ContainerChildren(bus, m, Some(it)).value;
              ChildObjects(InsertBatch(t, b), Some(it)) == Reverse(b) + ChildObjects(t, Some(it))
    ensures Discovery(bus).Some? ==>
              var b := Discovery(bus).value;
              ChildObjects(InsertBatch(t, b), None) == Reverse(b) + ChildObjects(t, None)
  {
    if ContainerChildren(bus, m, Some(it)).Some? {
      var b := ContainerChildren(bus, m, Some(it)).value;
      ContainerChildrenOutcome(bus, m, Some(it));
      assert forall k :: 0 <= k < |b| ==> b[k] in b;
      InsertBatchReverses(t, b, Some(it));
    }
    if Discovery(bus).Some? {
      var services := MediaServerNames(bus.listNames.value);
      var b := RootsOf(bus, services);
      forall k | 0 <= k < |b|
        ensures b[k].parentIter == None
      {
        RootsOfMembers(bus, services, b[k]);
      }
      InsertBatchReverses(t, b, None);
    }
  }

  // ----- Row activation -----

  datatype Activation = Expand | Import

  /** `_tree_row_activated_cb`'s choice: a container row without children is
      expanded, every other row is imported. */
  function ActivationFor(m: MediaObject, hasChild: bool): Activation
  {
    if m.objType == CONTAINER_TYPE && !hasChild then Expand else Import
  }

  /** Once an expansion has delivered at least one child, activating the container
      row again imports instead of querying again; an expansion that delivered no
      child leaves the row to be expanded again. */
  lemma ExpansionDecidesNextActivation(t: TreeStore, m: MediaObject, it: TreeIter, batch: seq<MediaObject>)
    requires Valid(t) && m.objType == CONTAINER_TYPE
    requires forall k :: 0 <= k < |batch| ==> batch[k].parentIter == Some(it)
    ensures batch != [] ==> ActivationFor(m, HasChild(InsertBatch(t, batch), it)) == Import
    ensures batch == [] && !HasChild(t, it) ==> ActivationFor(m, HasChild(InsertBatch(t, batch), it)) == Expand
  {
    InsertBatchReverses(t, batch, Some(it));
    if batch != [] {
      var t' := InsertBatch(t, batch);
      assert ChildObjects(t', Some(it)) != [];
    }
  }

  // ----- Import into the library -----

  /** One library entry; a metadata field is None when it was never set. */
  datatype Entry = Entry(location: string, title: string, artist: Option<Value>,
                         album: Option<Value>, duration: Option<Value>)

  /** `urls[0]` when the URLs property is truthy and its first element is a string
      location. A `urls[0]` that raises, or a location the database refuses for not
      being a string, leaves the callback with an exception: nothing is imported. */
  function Location(m: MediaObject): (r: Option<string>)
    ensures r.Some? ==> Truthy(Get(m.properties, URLS_PROPERTY))
  {
    match Get(m.properties, URLS_PROPERTY)
    case Array(items) => if items != [] && items[0].Str? then Some(items[0].s) else None
    case Str(s) => if s != [] then Some([s[0]]) else None
    case _ => None
  }

  /** The entry `_add_to_db` creates: the title always, artist and album only when
      truthy, the duration whenever it is not None. */
  function NewEntry(m: MediaObject, location: string): Entry
  {
    var artist := Get(m.properties, ARTIST_PROPERTY);
    var album := Get(m.properties, ALBUM_PROPERTY);
    var duration := Get(m.properties, DURATION_PROPERTY);
    Entry(location, m.name,
          if Truthy(artist) then Some(artist) else None,
          if Truthy(album) then Some(album) else None,
          if duration != Null then Some(duration) else None)
  }

  /** Whether `_add_to_db` creates an entry (and commits). */
  predicate CreatesEntry(entries: map<string, Entry>, m: MediaObject)
  {
    Location(m).Some? && Location(m).value !in entries
  }

  /** The library after `_add_to_db`: existing entries are never changed, and at
      most the entry for the first URL is added. */
  function Imported(entries: map<string, Entry>, m: MediaObject): (r: map<string, Entry>)
    ensures forall loc :: loc in entries ==> loc in r && r[loc] == entries[loc]
    ensures CreatesEntry(entries, m) ==> r.Keys == entries.Keys + {Location(m).value}
    ensures !CreatesEntry(entries, m) ==> r == entries
    ensures CreatesEntry(entries, m) ==>
              var e := r[Location(m).value]; e.location == Location(m).value && e.title == m.name
  {
    if CreatesEntry(entries, m) then entries[Location(m).value := NewEntry(m, Location(m).value)] else entries
  }

  /** Importing the same object twice changes the library once. */
  lemma ImportIdempotent(entries: map<string, Entry>, m: MediaObject)
    ensures Imported(Imported(entries, m), m) == Imported(entries, m)
    ensures !CreatesEntry(Imported(entries, m), m)
  {
  }

  /** The first URL is the key. */
  lemma LocationIsFirstUrl(m: MediaObject, url: string, rest: seq<Value>)
    requires Get(m.properties, URLS_PROPERTY) == Array([Str(url)] + rest)
    ensures Location(m) == Some(url)
  {
  }

  /** An object without URLs is never imported; this covers every container the
      engine produces, since containers are never given properties. */
  lemma ContainersNotImported(bus: Bus, entries: map<string, Entry>, parent: MediaObject,
                              items: seq<ChildRecord>, services: seq<string>, treeIter: Option<TreeIter>)
    ensures forall m: MediaObject :: m.properties == map[] ==> Imported(entries, m) == entries
    ensures forall c :: c in ChildrenOf(bus, parent, items, treeIter) && c.objType == CONTAINER_TYPE ==>
              Imported(entries, c) == entries
    ensures forall r :: r in RootsOf(bus, services) ==> Imported(entries, r) == entries
  {
    ChildrenOfShape(bus, parent, items, treeIter);
    forall r | r in RootsOf(bus, services)
      ensures Imported(entries, r) == entries
    {
      RootsOfMembers(bus, services, r);
    }
  }

  /** A duration of 0 is still recorded; an empty artist or album is not. */
  lemma ZeroDurationKept(m: MediaObject, location: string)
    requires Get(m.properties, DURATION_PROPERTY) == Int(0)
    requires Get(m.properties, ARTIST_PROPERTY) == Str("")
    requires Get(m.properties, ALBUM_PROPERTY) == Null
    ensures NewEntry(m, location).duration == Some(Int(0))
    ensures NewEntry(m, location).artist == None && NewEntry(m, location).album == None
  {
  }

  /** The host's library database: entries by location, and the commits made. */
  class Database {
    var entries: map<string, Entry>
    var commits: nat

    constructor(entries: map<string, Entry>)
      ensures this.entries == entries && commits == 0
    {
      this.entries := entries;
      commits := 0;
    }
  }

  class MediaServer2Source {
    const service: MediaServer2Service
    const db: Database
    var isActivated: bool
    /** Whether the tree view and its store have been built. */
    var viewBuilt: bool
    var tree: TreeStore
    /** Rows expanded in the view. */
    var expanded: set<TreeIter>

    ghost predicate Valid()
      reads this
    {
      TreeStores.Valid(tree)
    }

    /** `__init__`: not activated; its service is new, with an idle worker. */
    constructor(bus: Bus, db: Database)
      ensures Valid() && !isActivated && !viewBuilt && this.db == db
      ensures tree == EmptyStore() && expanded == {}
      ensures fresh(service) && service.bus == bus && !service.stopped
      ensures service.queue == [] && service.log == [] && service.pendingDiscoveries == 0
      ensures service.phase == AtStopCheck
    {
      service := new MediaServer2Service(bus);
      this.db := db;
      isActivated := false;
      viewBuilt := false;
      tree := EmptyStore();
      expanded := {};
    }

    /** `do_impl_activate`: the first call builds the view with an empty store
        and starts discovery; later calls change nothing. */
    method DoImplActivate()
      requires Valid()
      modifies this, service
      ensures Valid()
      ensures old(isActivated) ==> unchanged(this) && unchanged(service)
      ensures !old(isActivated) ==>
                isActivated && viewBuilt && tree == EmptyStore() && expanded == {} &&
                service.pendingDiscoveries == old(service.pendingDiscoveries) + 1 &&
                service.queue == old(service.queue) && service.log == old(service.log) &&
                service.stopped == old(service.stopped) && service.phase == old(service.phase)
    {
      if isActivated {
        return;
      }
      isActivated := true;
      tree := EmptyStore();
      expanded := {};
      viewBuilt := true;
      service.GetMedia(None, None);
    }

    /** `_media_retrieved_cb`: each object of the batch, in order, becomes the
        first child of its parent; each parent an object has is expanded. */
    method MediaRetrieved(batch: seq<MediaObject>)
      requires Valid()
      modifies this
      ensures Valid()
      ensures tree == InsertBatch(old(tree), batch)
      ensures expanded == old(expanded) + ParentsOf(batch)
      ensures isActivated == old(isActivated) && viewBuilt == old(viewBuilt)
    {
      assert batch[0..] == batch;
      for i := 0 to |batch|
        invariant InsertBatch(tree, batch[i..]) == InsertBatch(old(tree), batch)
        invariant expanded + ParentsOf(batch[i..]) == old(expanded) + ParentsOf(batch)
        invariant isActivated == old(isActivated) && viewBuilt == old(viewBuilt)
      {
        var mediaObj := batch[i];
        var parentIter := mediaObj.parentIter;
        var icon := IconName(mediaObj.objType);
        InsertBatchStep(tree, batch, i);
        assert Row(mediaObj.name, icon, mediaObj) == RowFor(mediaObj);
        tree := Insert(tree, parentIter, Row(mediaObj.name, icon, mediaObj));
        if parentIter.Some? {
          expanded := expanded + {parentIter.value};
        }
      }
      assert batch[|batch|..] == [];
    }

    /** One move of the worker thread, with what it emits delivered at once:
        `emit` runs `_media_retrieved_cb` in the emitting thread, so a logged batch
        is in the tree before the worker moves on. */
    method WorkerStepDelivered()
      requires Valid()
      modifies this, service
      ensures Valid()
      ensures old(service.phase) == Exited ==> unchanged(service)
      ensures old(service.phase) == AtStopCheck ==>
                service.queue == old(service.queue) && service.log == old(service.log) &&
                service.phase == (if old(service.stopped) then Exited else AwaitingRequest)
      ensures old(service.phase) == AwaitingRequest && old(service.queue) == [] ==> unchanged(service)
      ensures old(service.phase) == AwaitingRequest && old(service.queue) != [] ==>
                service.queue == old(service.queue)[1..] && service.phase == AtStopCheck &&
                service.log == old(service.log) + Emission(Serve(service.bus, old(service.queue)[0]))
      ensures service.stopped == old(service.stopped)
      ensures service.pendingDiscoveries == old(service.pendingDiscoveries)
      ensures |old(service.log)| <= |service.log| <= |old(service.log)| + 1
      ensures service.log[..|old(service.log)|] == old(service.log)
      ensures tree == InsertBatches(old(tree), service.log[|old(service.log)|..])
      ensures expanded == old(expanded) + ParentsOfAll(service.log[|old(service.log)|..])
      ensures isActivated == old(isActivated) && viewBuilt == old(viewBuilt)
    {
      var before := service.log;
      service.WorkerStep();
      DeliverNew(before);
    }

    /** One discovery thread run to the end, with its batch delivered at once. */
    method DiscoveryStepDelivered()
      requires Valid()
      modifies this, service
      ensures Valid()
      ensures old(service.pendingDiscoveries) == 0 ==> unchanged(service)
      ensures old(service.pendingDiscoveries) > 0 ==>
                service.pendingDiscoveries == old(service.pendingDiscoveries) - 1 &&
                service.log == old(service.log) + Emission(Discovery(service.bus))
      ensures service.stopped == old(service.stopped)
      ensures service.queue == old(service.queue) && service.phase == old(service.phase)
      ensures |old(service.log)| <= |service.log| <= |old(service.log)| + 1
      ensures service.log[..|old(service.log)|] == old(service.log)
      ensures tree == InsertBatches(old(tree), service.log[|old(service.log)|..])
      ensures expanded == old(expanded) + ParentsOfAll(service.log[|old(service.log)|..])
      ensures isActivated == old(isActivated) && viewBuilt == old(viewBuilt)
    {
      var before := service.log;
      service.DiscoveryStep();
      DeliverNew(before);
    }

    /** Runs the callback on the batch the last step added to the log, if any. */
    method DeliverNew(before: seq<seq<MediaObject>>)
      requires Valid()
      requires |before| <= |service.log| <= |before| + 1
      modifies this
      ensures Valid()
      ensures tree == InsertBatches(old(tree), service.log[|before|..])
      ensures expanded == old(expanded) + ParentsOfAll(service.log[|before|..])
      ensures isActivated == old(isActivated) && viewBuilt == old(viewBuilt)
    {
      if |service.log| == |before| {
        assert service.log[|before|..] == [];
        return;
      }
      var batch := service.log[|before|];
      assert service.log[|before|..] == [batch];
      MediaRetrieved(batch);
      assert [batch][1..] == [];
    }

    /** `_add_to_db`. */
    method AddToDb(m: MediaObject)
      modifies db
      ensures db.entries == Imported(old(db.entries), m)
      ensures db.commits == old(db.commits) + (if CreatesEntry(old(db.entries), m) then 1 else 0)
    {
      var urls := Get(m.properties, URLS_PROPERTY);
      if !Truthy(urls) {
        return;
      }
      var location: string;
      match urls {
        case Array(items) =>
          if !items[0].Str? {
            return;
          }
          location := items[0].s;
        case Str(s) =>
          location := [s[0]];
        case _ =>
          return;
      }
      assert location == Location(m).value;
      if location in db.entries {
        return;
      }
      var entry := Entry(location, [], None, None, None);
      entry := entry.(title := m.name);
      var artist := Get(m.properties, ARTIST_PROPERTY);
      if Truthy(artist) {
        entry := entry.(artist := Some(artist));
      }
      var album := Get(m.properties, ALBUM_PROPERTY);
      if Truthy(album) {
        entry := entry.(album := Some(album));
      }
      var duration := Get(m.properties, DURATION_PROPERTY);
      if duration != Null {
        entry := entry.(duration := Some(duration));
      }
      assert entry == NewEntry(m, location);
      db.entries := db.entries[location := entry];
      db.commits := db.commits + 1;
    }

    /** `_tree_row_activated_cb` on the row `it`: a container row without children
        is queued for expansion with its own iter and nothing is imported; any
        other row is imported and nothing is queued. */
    method TreeRowActivated(it: TreeIter)
      requires Valid() && it in tree.rows
      modifies service, db
      ensures var m := tree.rows[it].obj;
              if ActivationFor(m, HasChild(tree, it)) == Expand then
                service.queue == old(service.queue) + [Request(Some(m), Some(it))] &&
                service.pendingDiscoveries == old(service.pendingDiscoveries) &&
                db.entries == old(db.entries) && db.commits == old(db.commits)
              else
                unchanged(service) &&
                db.entries == Imported(old(db.entries), m) &&
                db.commits == old(db.commits) + (if CreatesEntry(old(db.entries), m) then 1 else 0)
      ensures service.stopped == old(service.stopped) && service.log == old(service.log)
      ensures service.phase == old(service.phase)
    {
      var mediaObj := tree.rows[it].obj;
      if mediaObj.objType == CONTAINER_TYPE && !HasChild(tree, it) {
        service.GetMedia(Some(mediaObj), Some(it));
        return;
      }
      AddToDb(mediaObj);
    }

    /** `do_impl_delete_thyself`: the service is told to stop; nothing else changes. */
    method DoImplDeleteThyself()
      modifies service
      ensures service.stopped
      ensures service.queue == old(service.queue) && service.phase == old(service.phase)
      ensures service.log == old(service.log) && service.pendingDiscoveries == old(service.pendingDiscoveries)
    {
      service.stopped := true;
    }
  }

  /** Two requests served by the worker with synchronous delivery: the batches
      are logged in queue order, and the tree is the empty store with the logged
      batches inserted in that order. */
  method DeliveredFifoScenario(bus: Bus, db: Database, a: MediaObject, b: MediaObject, ia: TreeIter, ib: TreeIter)
    returns (log: seq<seq<MediaObject>>, tree: TreeStore)
    ensures log == Emission(Serve(bus, Request(Some(a), Some(ia)))) + Emission(Serve(bus, Request(Some(b), Some(ib))))
    ensures tree == InsertBatches(EmptyStore(), log)
  {
    var source := new MediaServer2Source(bus, db);
    var service := source.service;
    var ra, rb := Request(Some(a), Some(ia)), Request(Some(b), Some(ib));
    service.GetMedia(Some(a), Some(ia));
    service.GetMedia(Some(b), Some(ib));
    assert service.queue == [ra, rb] && service.phase == AtStopCheck && !service.stopped;
    source.WorkerStepDelivered();
    assert service.log == [] && service.phase == AwaitingRequest;
    assert source.tree == EmptyStore();
    source.WorkerStepDelivered();
    assert service.queue == [rb] && service.phase == AtStopCheck;
    ghost var log1 := service.log;
    assert log1 == Emission(Serve(bus, ra));
    assert source.tree == InsertBatches(EmptyStore(), log1);
    source.WorkerStepDelivered();
    assert service.log == log1 && service.phase == AwaitingRequest && service.queue == [rb];
    ghost var tree1 := source.tree;
    source.WorkerStepDelivered();
    log, tree := service.log, source.tree;
    assert log == log1 + Emission(Serve(bus, rb));
    assert log[|log1|..] == Emission(Serve(bus, rb));
    assert tree == InsertBatches(tree1, log[|log1|..]);
    InsertBatchesAppend(EmptyStore(), log1, log[|log1|..]);
    assert log1 + log[|log1|..] == log;
  }
}
