/** The consumer's `gtk.TreeStore`, reduced to what the source uses: rows holding
    a media object, each parent's ordered children, and insertion at position 0. */
module TreeStores {
  import opened Values
  import opened MediaObjects

  /** One row: the text and icon columns and the media object column. */
  datatype Row = Row(text: string, icon: Option<string>, obj: MediaObject)

  /** `rows` maps each iter to its row; `children` maps a parent (None for the top
      level) to its children in display order; `next` is the next unused iter. */
  datatype TreeStore = TreeStore(
    rows: map<TreeIter, Row>,
    children: map<Option<TreeIter>, seq<TreeIter>>,
    next: nat)

  /** A freshly constructed store. */
  function EmptyStore(): TreeStore
  {
    TreeStore(map[], map[], 0)
  }

  function ChildIters(t: TreeStore, parent: Option<TreeIter>): seq<TreeIter>
  {
    if parent in t.children then t.children[parent] else []
  }

  /** `iter_has_child`. */
  predicate HasChild(t: TreeStore, it: TreeIter)
  {
    ChildIters(t, Some(it)) != []
  }

  /** Every listed child is a row, and every row's iter was handed out already. */
  ghost predicate Valid(t: TreeStore)
  {
    && (forall p, it :: p in t.children && it in t.children[p] ==> it in t.rows)
    && (forall it :: it in t.rows ==> it.id < t.next)
  }

  /** `insert(parent, 0, row)`: a new row becomes the parent's first child. */
  function Insert(t: TreeStore, parent: Option<TreeIter>, row: Row): TreeStore
  {
    var it := TreeIter(t.next);
    TreeStore(t.rows[it := row], t.children[parent := [it] + ChildIters(t, parent)], t.next + 1)
  }

  /** The media objects of a sequence of rows. */
  function RowObjects(rows: map<TreeIter, Row>, iters: seq<TreeIter>): seq<MediaObject>
    requires forall it :: it in iters ==> it in rows
  {
    if iters == [] then [] else [rows[iters[0]].obj] + RowObjects(rows, iters[1..])
  }

  /** The media objects shown under `parent`, top to bottom. */
  ghost function ChildObjects(t: TreeStore, parent: Option<TreeIter>): seq<MediaObject>
    requires Valid(t)
  {
    RowObjects(t.rows, ChildIters(t, parent))
  }

  /** Adding a row under an iter that is not yet used leaves the objects of
      existing rows as they were. */
  lemma {:induction false} RowObjectsUnderNewRow(rows: map<TreeIter, Row>, iters: seq<TreeIter>, it: TreeIter, row: Row)
    requires forall i :: i in iters ==> i in rows
    requires it !in rows
    ensures RowObjects(rows[it := row], iters) == RowObjects(rows, iters)
  {
    if iters != [] {
      RowObjectsUnderNewRow(rows, iters[1..], it, row);
    }
  }

  /** Insertion never breaks validity. */
  lemma InsertKeepsValid(t: TreeStore, parent: Option<TreeIter>, row: Row)
    ensures Valid(t) ==> Valid(Insert(t, parent, row))
  {
    if Valid(t) {
      InsertChildObjects(t, parent, row, parent);
    }
  }

  /** Insertion keeps the store valid, puts the new object first under its parent
      and leaves every other parent's children as they were. */
  lemma InsertChildObjects(t: TreeStore, parent: Option<TreeIter>, row: Row, p: Option<TreeIter>)
    requires Valid(t)
    ensures Valid(Insert(t, parent, row))
    ensures ChildObjects(Insert(t, parent, row), p) ==
            if p == parent then [row.obj] + ChildObjects(t, p) else ChildObjects(t, p)
  {
    var t' := Insert(t, parent, row);
    var it := TreeIter(t.next);
    assert it !in t.rows;
    forall q, i | q in t'.children && i in t'.children[q]
      ensures i in t'.rows
    {
      if q != parent {
        assert i in t.children[q];
      } else if i != it {
        assert i in ChildIters(t, parent);
      }
    }
    RowObjectsUnderNewRow(t.rows, ChildIters(t, p), it, row);
    if p == parent {
      assert ChildIters(t', p) == [it] + ChildIters(t, p);
      assert ChildIters(t', p)[1..] == ChildIters(t, p);
    } else {
      assert ChildIters(t', p) == ChildIters(t, p);
    }
  }
}
