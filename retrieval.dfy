/** The retrieval logic of MediaServer2Service with the bus abstracted away:
    service discovery and the expansion of one container. Each loop of the
    source is a method, proved equal to a specification function (recursive
    for the list-building loops, a map comprehension for the property copy)
    whose properties are lemmas. */
module Retrieval {
  import opened Values
  import opened MediaObjects
  import opened Naming

  // ----- Service discovery -----

  /** The advertised names that start with the MediaServer2 prefix, in bus order. */
  function MediaServerNames(names: seq<string>): seq<string>
  {
    if names == [] then [] else Kept(names[0]) + MediaServerNames(names[1..])
  }

  /** A name is kept exactly when it was advertised with the prefix; never more
      names than were advertised. */
  lemma {:induction false} MediaServerNamesMembers(names: seq<string>)
    ensures |MediaServerNames(names)| <= |names|
    ensures forall s :: s in MediaServerNames(names) <==> s in names && StartsWith(s, NAME_PREFIX)
  {
    if names != [] {
      MediaServerNamesMembers(names[1..]);
      forall s | s in names && StartsWith(s, NAME_PREFIX)
        ensures s in MediaServerNames(names)
      {
        if s != names[0] {
          assert s in names[1..];
        }
      }
    }
  }

  function Kept(name: string): seq<string>
  {
    if StartsWith(name, NAME_PREFIX) then [name] else []
  }

  /** Filtering commutes with concatenation: nothing is reordered. */
  lemma {:induction false} MediaServerNamesAppend(a: seq<string>, b: seq<string>)
    ensures MediaServerNames(a + b) == MediaServerNames(a) + MediaServerNames(b)
  {
    if a != [] {
      assert (a + b)[0] == a[0];
      assert (a + b)[1..] == a[1..] + b;
      MediaServerNamesAppend(a[1..], b);
      SeqAssoc(Kept(a[0]), MediaServerNames(a[1..]), MediaServerNames(b));
    } else {
      assert a + b == b;
    }
  }

  lemma MediaServerNamesPrefix(names: seq<string>, i: nat)
    requires i < |names|
    ensures MediaServerNames(names[..i + 1]) == MediaServerNames(names[..i]) + Kept(names[i])
  {
    assert names[..i + 1] == names[..i] + [names[i]];
    MediaServerNamesAppend(names[..i], [names[i]]);
    assert [names[i]][1..] == [];
  }

  /** When every advertised name is a MediaServer2 name, all are kept as they are. */
  lemma {:induction false} MediaServerNamesKeepsAll(names: seq<string>)
    requires forall i :: 0 <= i < |names| ==> StartsWith(names[i], NAME_PREFIX)
    ensures MediaServerNames(names) == names
  {
    if names != [] {
      MediaServerNamesKeepsAll(names[1..]);
    }
  }

  /** `_get_available_services`, once `list_names()` has answered. */
  method GetAvailableServices(listed: seq<string>) returns (services: seq<string>)
    ensures services == MediaServerNames(listed)
  {
    services := [];
    assert listed[..0] == [];
    for i := 0 to |listed|
      invariant services == MediaServerNames(listed[..i])
    {
      MediaServerNamesPrefix(listed, i);
      if StartsWith(listed[i], NAME_PREFIX) {
        services := services + [listed[i]];
      }
    }
    assert listed[..|listed|] == listed;
  }

  /** The proxy a root is read through: bus name and path rebuilt from the last segment. */
  function RootRef(service: string): ObjectRef
  {
    ObjectRef(ServiceName(service), ServicePath(service))
  }

  /** The `get_object` plus `Get(DisplayName)` pair inside the one `try` of discovery. */
  function RootName(bus: Bus, service: string): Reply<string>
  {
    if bus.getObject(RootRef(service)) then bus.getDisplayName(RootRef(service)) else Failure
  }

  /** The root container made for a service that answered with `name`. */
  function Root(service: string, name: string): (m: MediaObject)
    ensures m.objType == CONTAINER_TYPE && m.parentIter == None && m.properties == map[]
    ensures m.name == name && RefOf(m) == RootRef(service)
  {
    NewMediaObject(name, ServiceName(service), ServicePath(service), CONTAINER_TYPE, None)
  }

  /** One root per service whose name could be read, in service order. */
  function RootsOf(bus: Bus, services: seq<string>): (r: seq<MediaObject>)
    ensures |r| <= |services|
  {
    if services == [] then [] else RootFor(bus, services[0]) + RootsOf(bus, services[1..])
  }

  /** The roots one service contributes: none, or one. */
  function RootFor(bus: Bus, service: string): seq<MediaObject>
  {
    match RootName(bus, service)
    case Success(name) => [Root(service, name)]
    case Failure => []
  }

  /** Services are independent: the roots of a concatenation are the
      concatenation of the roots, so a failing service suppresses no other. */
  lemma {:induction false} RootsOfAppend(bus: Bus, a: seq<string>, b: seq<string>)
    ensures RootsOf(bus, a + b) == RootsOf(bus, a) + RootsOf(bus, b)
  {
    if a != [] {
      assert (a + b)[0] == a[0];
      assert (a + b)[1..] == a[1..] + b;
      RootsOfAppend(bus, a[1..], b);
      SeqAssoc(RootFor(bus, a[0]), RootsOf(bus, a[1..]), RootsOf(bus, b));
    } else {
      assert a + b == b;
    }
  }

  /** A root is produced exactly for the services whose name read succeeds. */
  lemma {:induction false} RootsOfMembers(bus: Bus, services: seq<string>, m: MediaObject)
    ensures m in RootsOf(bus, services) <==>
            exists s :: s in services && RootName(bus, s).Success? && m == Root(s, RootName(bus, s).value)
  {
    if services != [] {
      RootsOfMembers(bus, services[1..], m);
      var s0 := services[0];
      if m in RootsOf(bus, services) && !(RootName(bus, s0).Success? && m == Root(s0, RootName(bus, s0).value)) {
        assert m in RootsOf(bus, services[1..]);
      }
      if exists s :: s in services && RootName(bus, s).Success? && m == Root(s, RootName(bus, s).value) {
        var s :| s in services && RootName(bus, s).Success? && m == Root(s, RootName(bus, s).value);
        if s != s0 {
          assert s in services[1..];
        }
      }
    }
  }

  lemma RootsOfPrefix(bus: Bus, services: seq<string>, i: nat)
    requires i < |services|
    ensures RootsOf(bus, services[..i + 1]) == RootsOf(bus, services[..i]) + RootFor(bus, services[i])
  {
    var one := [services[i]];
    assert services[..i + 1] == services[..i] + one;
    RootsOfAppend(bus, services[..i], one);
    assert one[1..] == [];
    assert RootsOf(bus, one) == RootFor(bus, one[0]) + RootsOf(bus, []);
  }

  /** Every service whose name read fails contributes nothing; when all of them fail
      the batch is empty, but it is still emitted. */
  lemma {:induction false} RootsOfAllFail(bus: Bus, services: seq<string>)
    requires forall i :: 0 <= i < |services| ==> RootName(bus, services[i]).Failure?
    ensures RootsOf(bus, services) == []
  {
    if services != [] {
      assert RootName(bus, services[0]).Failure?;
      RootsOfAllFail(bus, services[1..]);
    }
  }

  /** What one discovery run emits: nothing when `list_names()` fails (it is outside
      any `try`, so the thread ends), else one batch of roots. */
  function Discovery(bus: Bus): Option<seq<MediaObject>>
  {
    match bus.listNames
    case Failure => None
    case Success(names) => Some(RootsOf(bus, MediaServerNames(names)))
  }

  /** The body of the discovery loop for one service: rebuild its name and path,
      make the proxy and read the root's display name, all inside one `try`. */
  method GetRootObject(bus: Bus, service: string) returns (root: Reply<MediaObject>)
    ensures root.Success? <==> RootName(bus, service).Success?
    ensures root.Success? ==> root.value == Root(service, RootName(bus, service).value)
    ensures RootFor(bus, service) == if root.Success? then [root.value] else []
  {
    var proxy := RootRef(service);
    if !bus.getObject(proxy) {
      return Failure;
    }
    var name := bus.getDisplayName(proxy);
    if name.Failure? {
      return Failure;
    }
    root := Success(NewMediaObject(name.value, ServiceName(service), ServicePath(service), CONTAINER_TYPE, None));
  }

  /** `_get_services_media_objects`: the batch it emits, if any. */
  method GetServicesMediaObjects(bus: Bus) returns (batch: Option<seq<MediaObject>>)
    ensures batch == Discovery(bus)
  {
    if bus.listNames.Failure? {
      return None;
    }
    var services := GetAvailableServices(bus.listNames.value);
    var mediaObjList := [];
    assert services[..0] == [];
    for i := 0 to |services|
      invariant mediaObjList == RootsOf(bus, services[..i])
    {
      RootsOfPrefix(bus, services, i);
      var root := GetRootObject(bus, services[i]);
      if root.Success? {
        mediaObjList := mediaObjList + [root.value];
      }
    }
    assert services[..|services|] == services;
    batch := Some(mediaObjList);
  }

  // ----- Container expansion -----

  /** The property map after copying `infoList` out of a GetAll reply. */
  function WithInfo(props: map<string, Value>, gathered: map<string, Value>, infoList: seq<string>): map<string, Value>
  {
    props + map k | k in infoList :: Get(gathered, k)
  }

  /** Writing one more key extends the map by that key. */
  lemma WithInfoPrefix(props: map<string, Value>, gathered: map<string, Value>, infoList: seq<string>, i: nat)
    requires i < |infoList|
    ensures WithInfo(props, gathered, infoList[..i + 1]) ==
            WithInfo(props, gathered, infoList[..i])[infoList[i] := Get(gathered, infoList[i])]
  {
    assert infoList[..i + 1] == infoList[..i] + [infoList[i]];
  }

  /** `_get_info_for_object` as a value: the object with its properties filled in,
      or Failure when the proxy or the GetAll call raises. */
  function InfoForObject(bus: Bus, m: MediaObject, infoList: seq<string>): Reply<MediaObject>
  {
    if !bus.getObject(RefOf(m)) then Failure
    else match bus.getAll(RefOf(m))
      case Failure => Failure
      case Success(gathered) => Success(m.(properties := WithInfo(m.properties, gathered, infoList)))
  }

  /** `_get_info_for_object`: one GetAll, then the tracked keys written one by one. */
  method GetInfoForObject(bus: Bus, m: MediaObject, infoList: seq<string>) returns (r: Reply<MediaObject>)
    ensures r == InfoForObject(bus, m, infoList)
  {
    if !bus.getObject(RefOf(m)) {
      return Failure;
    }
    var infoGathered := bus.getAll(RefOf(m));
    if infoGathered.Failure? {
      return Failure;
    }
    var properties := m.properties;
    assert infoList[..0] == [];
    assert WithInfo(m.properties, infoGathered.value, []) == m.properties;
    for i := 0 to |infoList|
      invariant properties == WithInfo(m.properties, infoGathered.value, infoList[..i])
    {
      WithInfoPrefix(m.properties, infoGathered.value, infoList, i);
      properties := properties[infoList[i] := Get(infoGathered.value, infoList[i])];
    }
    assert infoList[..|infoList|] == infoList;
    r := Success(m.(properties := properties));
  }

  /** On a new object, a successful fetch leaves exactly the four tracked keys,
      each holding the GetAll value or None, and changes nothing else. */
  lemma InfoForNewObject(bus: Bus, m: MediaObject)
    requires m.properties == map[]
    ensures InfoForObject(bus, m, MEDIA_OBJECT_INFO_LIST).Success? <==>
            bus.getObject(RefOf(m)) && bus.getAll(RefOf(m)).Success?
    ensures InfoForObject(bus, m, MEDIA_OBJECT_INFO_LIST).Success? ==>
            var c := InfoForObject(bus, m, MEDIA_OBJECT_INFO_LIST).value;
            var gathered := bus.getAll(RefOf(m)).value;
            && c == m.(properties := c.properties)
            && c.properties.Keys == {URLS_PROPERTY, ARTIST_PROPERTY, ALBUM_PROPERTY, DURATION_PROPERTY}
            && c.properties[URLS_PROPERTY] == Get(gathered, URLS_PROPERTY)
            && c.properties[ARTIST_PROPERTY] == Get(gathered, ARTIST_PROPERTY)
            && c.properties[ALBUM_PROPERTY] == Get(gathered, ALBUM_PROPERTY)
            && c.properties[DURATION_PROPERTY] == Get(gathered, DURATION_PROPERTY)
  {
  }

  /** The child built from one listing record: same service as its parent, the
      record's path, type and name, the request's tree iter, no properties. */
  function ChildObject(parent: MediaObject, rec: ChildRecord, treeIter: Option<TreeIter>): MediaObject
  {
    NewMediaObject(rec.displayName, parent.dbusName, rec.path, rec.objType, treeIter)
  }

  /** The child that one record contributes: a container as it is, an item only
      when its metadata fetch succeeds. */
  function KeptChild(bus: Bus, parent: MediaObject, rec: ChildRecord, treeIter: Option<TreeIter>): Option<MediaObject>
  {
    var child := ChildObject(parent, rec, treeIter);
    if child.objType == CONTAINER_TYPE then Some(child)
    else match InfoForObject(bus, child, MEDIA_OBJECT_INFO_LIST)
      case Success(c) => Some(c)
      case Failure => None
  }

  /** The batch built from a listing, in listing order. */
  function ChildrenOf(bus: Bus, parent: MediaObject, items: seq<ChildRecord>, treeIter: Option<TreeIter>): seq<MediaObject>
  {
    if items == [] then []
    else ChildFor(bus, parent, items[0], treeIter) + ChildrenOf(bus, parent, items[1..], treeIter)
  }

  /** Never more children than records; every child has the parent's bus name and
      the request's tree iter; containers carry no properties and items exactly the
      four tracked keys. */
  lemma {:induction false} ChildrenOfShape(bus: Bus, parent: MediaObject, items: seq<ChildRecord>, treeIter: Option<TreeIter>)
    ensures var r := ChildrenOf(bus, parent, items, treeIter);
            && |r| <= |items|
            && (forall c :: c in r ==> c.dbusName == parent.dbusName && c.parentIter == treeIter)
            && (forall c :: c in r && c.objType == CONTAINER_TYPE ==> c.properties == map[])
            && (forall c :: c in r && c.objType != CONTAINER_TYPE ==>
                  c.properties.Keys == {URLS_PROPERTY, ARTIST_PROPERTY, ALBUM_PROPERTY, DURATION_PROPERTY})
  {
    if items != [] {
      ChildrenOfShape(bus, parent, items[1..], treeIter);
      var head := KeptChild(bus, parent, items[0], treeIter);
      if head.Some? && head.value.objType != CONTAINER_TYPE {
        InfoForNewObject(bus, ChildObject(parent, items[0], treeIter));
      }
    }
  }

  /** The children one record contributes: none, or one. */
  function ChildFor(bus: Bus, parent: MediaObject, rec: ChildRecord, treeIter: Option<TreeIter>): seq<MediaObject>
  {
    match KeptChild(bus, parent, rec, treeIter)
    case Some(c) => [c]
    case None => []
  }

  lemma {:induction false} ChildrenOfAppend(bus: Bus, parent: MediaObject, a: seq<ChildRecord>, b: seq<ChildRecord>,
                                            treeIter: Option<TreeIter>)
    ensures ChildrenOf(bus, parent, a + b, treeIter) == ChildrenOf(bus, parent, a, treeIter) + ChildrenOf(bus, parent, b, treeIter)
  {
    if a != [] {
      assert (a + b)[0] == a[0];
      assert (a + b)[1..] == a[1..] + b;
      ChildrenOfAppend(bus, parent, a[1..], b, treeIter);
      SeqAssoc(ChildFor(bus, parent, a[0], treeIter), ChildrenOf(bus, parent, a[1..], treeIter), ChildrenOf(bus, parent, b, treeIter));
    } else {
      assert a + b == b;
    }
  }

  lemma ChildrenOfPrefix(bus: Bus, parent: MediaObject, items: seq<ChildRecord>, i: nat, treeIter: Option<TreeIter>)
    requires i < |items|
    ensures ChildrenOf(bus, parent, items[..i + 1], treeIter) ==
            ChildrenOf(bus, parent, items[..i], treeIter) + ChildFor(bus, parent, items[i], treeIter)
  {
    assert items[..i + 1] == items[..i] + [items[i]];
    ChildrenOfAppend(bus, parent, items[..i], [items[i]], treeIter);
    assert [items[i]][1..] == [];
  }

  /** A kept child is the record's object: its name, path and type, the parent's
      service and the request's tree iter. */
  lemma KeptChildFields(bus: Bus, parent: MediaObject, rec: ChildRecord, treeIter: Option<TreeIter>)
    requires KeptChild(bus, parent, rec, treeIter).Some?
    ensures var c := KeptChild(bus, parent, rec, treeIter).value;
            c == ChildObject(parent, rec, treeIter).(properties := c.properties)
  {
  }

  /** When no metadata fetch fails (in particular when every child is a container),
      the batch has one child per record, in listing order, each built from its record. */
  lemma {:induction false} ChildrenOfNoFailure(bus: Bus, parent: MediaObject, items: seq<ChildRecord>,
                                               treeIter: Option<TreeIter>)
    requires forall i :: 0 <= i < |items| ==> KeptChild(bus, parent, items[i], treeIter).Some?
    ensures |ChildrenOf(bus, parent, items, treeIter)| == |items|
    ensures forall i :: 0 <= i < |items| ==>
              ChildrenOf(bus, parent, items, treeIter)[i] == KeptChild(bus, parent, items[i], treeIter).value
  {
    if items != [] {
      var head := KeptChild(bus, parent, items[0], treeIter);
      assert head.Some?;
      var rest := ChildrenOf(bus, parent, items[1..], treeIter);
      ChildrenOfNoFailure(bus, parent, items[1..], treeIter);
      assert ChildrenOf(bus, parent, items, treeIter) == [head.value] + rest;
      forall i | 1 <= i < |items|
        ensures ([head.value] + rest)[i] == KeptChild(bus, parent, items[i], treeIter).value
      {
        assert items[1..][i - 1] == items[i];
      }
    }
  }

  /** A container child is always kept, whatever the bus answers for it. */
  lemma ContainerChildAlwaysKept(bus: Bus, parent: MediaObject, rec: ChildRecord, treeIter: Option<TreeIter>)
    requires rec.objType == CONTAINER_TYPE
    ensures ChildrenOf(bus, parent, [rec], treeIter) == [ChildObject(parent, rec, treeIter)]
  {
  }

  /** An item whose metadata fetch fails is dropped from the batch. */
  lemma FailedItemDropped(bus: Bus, parent: MediaObject, rec: ChildRecord, treeIter: Option<TreeIter>)
    requires rec.objType != CONTAINER_TYPE
    requires !bus.getObject(ObjectRef(parent.dbusName, rec.path)) || bus.getAll(ObjectRef(parent.dbusName, rec.path)).Failure?
    ensures ChildrenOf(bus, parent, [rec], treeIter) == []
  {
  }

  /** The one ListChildren call an expansion makes. */
  function Listing(bus: Bus, m: MediaObject): Reply<seq<ChildRecord>>
  {
    bus.listChildren(RefOf(m), 0, MAX_CHILDREN_TO_GET, CHILD_FIELDS)
  }

  /** What expanding a container emits: nothing when the proxy cannot be made or
      the listing fails, else one batch built from the listing. */
  function ContainerChildren(bus: Bus, m: MediaObject, treeIter: Option<TreeIter>): Option<seq<MediaObject>>
  {
    if !bus.getObject(RefOf(m)) then None
    else match Listing(bus, m)
      case Failure => None
      case Success(items) => Some(ChildrenOf(bus, m, items, treeIter))
  }

  /** `_get_container_children` (with the proxy failure caught): the batch it emits, if any. */
  method GetContainerChildren(bus: Bus, m: MediaObject, treeIter: Option<TreeIter>) returns (batch: Option<seq<MediaObject>>)
    ensures batch == ContainerChildren(bus, m, treeIter)
  {
    if !bus.getObject(RefOf(m)) {
      return None;
    }
    var listing := bus.listChildren(RefOf(m), 0, MAX_CHILDREN_TO_GET, [PATH_PROPERTY, TYPE_PROPERTY, NAME_PROPERTY]);
    if listing.Failure? {
      return None;
    }
    var items := listing.value;
    var children := [];
    assert items[..0] == [];
    for i := 0 to |items|
      invariant children == ChildrenOf(bus, m, items[..i], treeIter)
    {
      ChildrenOfPrefix(bus, m, items, i, treeIter);
      var child := NewMediaObject(items[i].displayName, m.dbusName, items[i].path, items[i].objType, treeIter);
      if child.objType != CONTAINER_TYPE {
        var info := GetInfoForObject(bus, child, MEDIA_OBJECT_INFO_LIST);
        if info.Success? {
          children := children + [info.value];
        }
      } else {
        children := children + [child];
      }
    }
    assert items[..|items|] == items;
    batch := Some(children);
  }

  /** `_get_media_async`: only a container is expanded; anything else emits nothing. */
  method GetMediaAsync(bus: Bus, m: MediaObject, treeIter: Option<TreeIter>) returns (batch: Option<seq<MediaObject>>)
    ensures m.objType != CONTAINER_TYPE ==> batch == None
    ensures m.objType == CONTAINER_TYPE ==> batch == ContainerChildren(bus, m, treeIter)
  {
    batch := None;
    if m.objType == CONTAINER_TYPE {
      batch := GetContainerChildren(bus, m, treeIter);
    }
  }

  /** A failed listing emits nothing; a successful one emits a batch whose every
      child is attributed to the request's tree iter and comes from the listing. */
  lemma ContainerChildrenOutcome(bus: Bus, m: MediaObject, treeIter: Option<TreeIter>)
    ensures Listing(bus, m).Failure? ==> ContainerChildren(bus, m, treeIter) == None
    ensures ContainerChildren(bus, m, treeIter).Some? <==> bus.getObject(RefOf(m)) && Listing(bus, m).Success?
    ensures ContainerChildren(bus, m, treeIter).Some? ==>
              var batch := ContainerChildren(bus, m, treeIter).value;
              |batch| <= |Listing(bus, m).value| &&
              forall c :: c in batch ==> c.parentIter == treeIter && c.dbusName == m.dbusName
  {
    if Listing(bus, m).Success? {
      ChildrenOfShape(bus, m, Listing(bus, m).value, treeIter);
    }
  }

  // ----- The source as written -----

  /** How an expansion ends in the source as written. */
  datatype Outcome = Emitted(batch: seq<MediaObject>) | Silent | Raised

  /** `_get_container_children` as written: the proxy of line 124 is made outside
      the `try`, so a `get_object` that raises leaves the method, and then the
      worker loop, with the exception. */
  function ContainerChildrenAsWritten(bus: Bus, m: MediaObject, treeIter: Option<TreeIter>): (r: Outcome)
  {
    if !bus.getObject(RefOf(m)) then Raised
    else match Listing(bus, m)
      case Failure => Silent
      case Success(items) => Emitted(ChildrenOf(bus, m, items, treeIter))
  }

  /** A container whose service has left the bus makes the written code raise
      out of the worker; the corrected expansion only emits nothing. Wherever the
      proxy can be made the two agree. */
  lemma AsWrittenRaisesOnVanishedService(bus: Bus, m: MediaObject, treeIter: Option<TreeIter>)
    ensures !bus.getObject(RefOf(m)) ==>
              ContainerChildrenAsWritten(bus, m, treeIter) == Raised && ContainerChildren(bus, m, treeIter) == None
    ensures bus.getObject(RefOf(m)) ==>
              ContainerChildrenAsWritten(bus, m, treeIter) ==
              (match ContainerChildren(bus, m, treeIter) case Some(b) => Emitted(b) case None => Silent)
  {
  }
}
