/** The entities of mediaserver2service.py: the protocol's constants, the
    MediaObject record, and the session bus as an oracle. */
module MediaObjects {
  import opened Values

  const CONTAINER_TYPE := "container"
  const AUDIO_TYPE := "audio"
  const VIDEO_TYPE := "video"

  const NAME_PROPERTY := "DisplayName"
  const ARTIST_PROPERTY := "Artist"
  const ALBUM_PROPERTY := "Album"
  const DURATION_PROPERTY := "Duration"
  const URLS_PROPERTY := "URLs"
  const TYPE_PROPERTY := "Type"
  const PATH_PROPERTY := "Path"

  /** The leaf properties copied out of a bulk GetAll, in this order. */
  const MEDIA_OBJECT_INFO_LIST := [URLS_PROPERTY, ARTIST_PROPERTY, ALBUM_PROPERTY, DURATION_PROPERTY]

  /** The fields asked of ListChildren. */
  const CHILD_FIELDS := [PATH_PROPERTY, TYPE_PROPERTY, NAME_PROPERTY]

  const NAME_PREFIX := "org.gnome.UPnP.MediaServer2."
  const PATH_PREFIX := "/org/gnome/UPnP/MediaServer2/"

  /** The page size of the one ListChildren call per expansion. */
  const MAX_CHILDREN_TO_GET := 50

  /** A handle to a row of the consumer's tree; the engine only carries it. */
  datatype TreeIter = TreeIter(id: nat)

  /** One remote object: a container or a leaf item. `properties` is filled at
      most once, before the object is handed to the consumer. */
  datatype MediaObject = MediaObject(
    name: string,
    dbusName: string,
    dbusPath: string,
    objType: string,
    parentIter: Option<TreeIter>,
    properties: map<string, Value>)

  /** `MediaObject(name, dbus_name, dbus_path, obj_type, parent_iter)`: a new object
      has no properties yet. */
  function NewMediaObject(name: string, dbusName: string, dbusPath: string,
                          objType: string, parentIter: Option<TreeIter>): MediaObject
  {
    MediaObject(name, dbusName, dbusPath, objType, parentIter, map[])
  }

  /** One record of a ListChildren reply, with the three fields asked for. */
  datatype ChildRecord = ChildRecord(path: string, objType: string, displayName: string)

  /** The (bus name, object path) pair a proxy is made for. */
  datatype ObjectRef = ObjectRef(busName: string, path: string)

  function RefOf(m: MediaObject): ObjectRef
  {
    ObjectRef(m.dbusName, m.dbusPath)
  }

  /** The session bus as seen by the plugin. Each field answers one kind of call:
      - listNames: `bus.list_names()`;
      - getObject: whether `bus.get_object(name, path)` returns a proxy (it raises
        when the name has no owner and cannot be activated);
      - getDisplayName: `Get('org.gnome.UPnP.MediaObject2', 'DisplayName')`;
      - listChildren: `ListChildren(offset, count, fields)` of MediaContainer2;
      - getAll: `GetAll('org.gnome.UPnP.MediaItem2')`. */
  datatype Bus = Bus(
    listNames: Reply<seq<string>>,
    getObject: ObjectRef -> bool,
    getDisplayName: ObjectRef -> Reply<string>,
    listChildren: (ObjectRef, nat, nat, seq<string>) -> Reply<seq<ChildRecord>>,
    getAll: ObjectRef -> Reply<map<string, Value>>)
}
