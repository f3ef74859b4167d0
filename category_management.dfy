/** Category management: the collection of categories as a map from
    document id to name, the clash test the page runs before a write, and
    the add, edit and delete handlers as changes to that collection. After
    each write the page fetches the collection again, so the list it tests
    against is the collection itself. */
module CategoryManagement {
  import opened Js
  import Catalog

  /** What a handler reports. */
  datatype Outcome =
    | FieldsRequired     // the trimmed id or name is empty
    | AlreadyExists      // another category has this id or this name
    | UpdateFailed       // the document to update is not in the collection
    | Done

  /** checkCategoryExists: some category other than the one being edited
      has this id or this name. */
  predicate Clashes(cats: Catalog.Categories, id: string, name: string, originalId: Option<string>) {
    exists k :: k in cats && Some(k) != originalId && (k == id || cats[k] == name)
  }

  /** No two categories share a name. */
  ghost predicate UniqueNames<K, V>(m: map<K, V>) {
    forall a, b :: a in m && b in m && m[a] == m[b] ==> a == b
  }

  predicate Blank(s: string) {
    Trim(s) == ""
  }

  /** handleAddCategory. */
  function Add(cats: Catalog.Categories, id: string, name: string): (Outcome, Catalog.Categories) {
    if Blank(id) || Blank(name) then (FieldsRequired, cats)
    else if Clashes(cats, id, name, None) then (AlreadyExists, cats)
    else (Done, cats[id := name])
  }

  /** handleEditCategory: a new id deletes the old document and writes the
      new one; the same id updates the name of a document that must exist. */
  function Edit(cats: Catalog.Categories, originalId: string, id: string, name: string): (Outcome, Catalog.Categories) {
    if Blank(id) || Blank(name) then (FieldsRequired, cats)
    else if Clashes(cats, id, name, Some(originalId)) then (AlreadyExists, cats)
    else if id != originalId then (Done, (cats - {originalId})[id := name])
    else if originalId !in cats then (UpdateFailed, cats)
    else (Done, cats[id := name])
  }

  /** handleDeleteCategory: an empty selection deletes nothing. */
  function Delete(cats: Catalog.Categories, id: string): Catalog.Categories {
    if id == "" then cats else cats - {id}
  }

  // -----------------------------------------------------------------------
  // Properties

  /** Excluding the original id is the same as testing against the
      collection without it; with no original id, a clash is a used id or a
      used name. */
  lemma ClashesSpec(cats: Catalog.Categories, id: string, name: string, originalId: string)
    ensures Clashes(cats, id, name, Some(originalId)) <==> Clashes(cats - {originalId}, id, name, None)
    ensures Clashes(cats, id, name, None) <==> id in cats || name in cats.Values
  {
    if Clashes(cats, id, name, Some(originalId)) {
      var k :| k in cats && k != originalId && (k == id || cats[k] == name);
      assert k in cats - {originalId};
    }
    if name in cats.Values {
      var k :| k in cats && cats[k] == name;
      assert Some(k) != None;
    }
  }

  /** An add succeeds exactly when both fields have text and neither the id
      nor the name is in use; it then adds one category and keeps the rest,
      and otherwise changes nothing. */
  lemma AddSpec(cats: Catalog.Categories, id: string, name: string)
    ensures var (o, after) := Add(cats, id, name);
      && (o == Done <==> !Blank(id) && !Blank(name) && id !in cats && name !in cats.Values)
      && (o != Done ==> after == cats)
      && (o == Done ==> after.Keys == cats.Keys + {id} && after[id] == name && |after| == |cats| + 1)
      && (forall k :: k in cats ==> k in after && after[k] == cats[k])
  {
    ClashesSpec(cats, id, name, id);
    if Blank(id) || Blank(name) || Clashes(cats, id, name, None) {
      assert Add(cats, id, name).1 == cats;
    } else {
      assert Add(cats, id, name) == (Done, cats[id := name]);
      InsertSpec(cats, id, name);
    }
  }

  /** Mapping a new key. */
  lemma InsertSpec<K, V>(m: map<K, V>, k: K, v: V)
    requires k !in m
    ensures var r := m[k := v];
      && r.Keys == m.Keys + {k} && r[k] == v && |r| == |m| + 1
      && forall x :: x in m ==> x in r && r[x] == m[x]
  {
  }

  /** An edit succeeds exactly when both fields have text, no other
      category has the id or the name, and the document exists or the id
      changes. */
  lemma EditAccepted(cats: Catalog.Categories, originalId: string, id: string, name: string)
    ensures Edit(cats, originalId, id, name).0 == Done <==>
      && !Blank(id) && !Blank(name)
      && !Clashes(cats - {originalId}, id, name, None)
      && (id != originalId || originalId in cats)
  {
    ClashesSpec(cats, id, name, originalId);
  }

  /** A successful edit maps the new id to the name, drops the original id
      and keeps every other category; a refused one changes nothing. */
  lemma EditSpec(cats: Catalog.Categories, originalId: string, id: string, name: string)
    ensures var (o, after) := Edit(cats, originalId, id, name);
      && (o != Done ==> after == cats)
      && (o == Done ==>
            && after.Keys == cats.Keys - {originalId} + {id} && after[id] == name
            && forall k :: k in cats && k != originalId && k != id ==> k in after && after[k] == cats[k])
      && (o == Done && id != originalId ==> originalId !in after)
  {
    EditResult(cats, originalId, id, name);
    ReplaceSpec(cats, originalId, id, name);
  }

  /** Removing one key and mapping another. */
  lemma ReplaceSpec<K, V>(m: map<K, V>, gone: K, k: K, v: V)
    ensures var r := (m - {gone})[k := v];
      && r.Keys == m.Keys - {gone} + {k} && r[k] == v
      && (forall x :: x in m && x != gone && x != k ==> x in r && r[x] == m[x])
      && (gone != k ==> gone !in r)
  {
  }

  /** Updating a key is removing it and mapping it again. */
  lemma UpdateIsReplace<K, V>(m: map<K, V>, k: K, v: V)
    ensures m[k := v] == (m - {k})[k := v]
  {
    var a := m[k := v];
    var b := (m - {k})[k := v];
    assert a.Keys == b.Keys;
    forall x | x in a
      ensures a[x] == b[x]
    {
    }
  }

  /** The category being edited never clashes with itself: keeping its
      name while keeping its id, or moving it to an unused id, is accepted. */
  lemma EditIgnoresOwnEntry(cats: Catalog.Categories, originalId: string, id: string)
    requires originalId in cats && UniqueNames(cats)
    requires id == originalId || id !in cats
    requires !Blank(id) && !Blank(cats[originalId])
    ensures Edit(cats, originalId, id, cats[originalId]).0 == Done
  {
    var name := cats[originalId];
    if Clashes(cats, id, name, Some(originalId)) {
      var k :| k in cats && Some(k) != Some(originalId) && (k == id || cats[k] == name);
      assert false;
    }
  }

  /** Saving an unchanged category leaves the collection as it was. */
  lemma EditUnchanged(cats: Catalog.Categories, id: string)
    requires id in cats && UniqueNames(cats)
    requires !Blank(id) && !Blank(cats[id])
    ensures Edit(cats, id, id, cats[id]) == (Done, cats)
  {
    if Clashes(cats, id, cats[id], Some(id)) {
      var k :| k in cats && Some(k) != Some(id) && (k == id || cats[k] == cats[id]);
      assert false;
    }
    assert cats[id := cats[id]] == cats;
  }

  /** A delete removes exactly the chosen category. */
  lemma DeleteSpec(cats: Catalog.Categories, id: string)
    ensures id != "" ==> Delete(cats, id).Keys == cats.Keys - {id}
    ensures id == "" ==> Delete(cats, id) == cats
    ensures forall k :: k in cats && k != id ==> k in Delete(cats, id) && Delete(cats, id)[k] == cats[k]
  {
  }

  /** The clash test keeps names unique: every handler that starts from a
      collection with unique names leaves one with unique names. */
  lemma AddKeepsUniqueNames(cats: Catalog.Categories, id: string, name: string)
    requires UniqueNames(cats)
    ensures UniqueNames(Add(cats, id, name).1)
  {
    if Add(cats, id, name).0 == Done {
      forall k | k in cats && k != id
        ensures cats[k] != name
      {
        assert Some(k) != None;
      }
      InsertKeepsUniqueNames(cats, id, name);
    }
  }

  lemma EditKeepsUniqueNames(cats: Catalog.Categories, originalId: string, id: string, name: string)
    requires UniqueNames(cats)
    ensures UniqueNames(Edit(cats, originalId, id, name).1)
  {
    EditResult(cats, originalId, id, name);
    if Edit(cats, originalId, id, name).0 == Done {
      RemoveKeepsUniqueNames(cats, originalId);
      InsertKeepsUniqueNames(cats - {originalId}, id, name);
    }
  }

  /** A refused edit leaves the collection alone; a successful one maps the
      id to the name in the collection without the original id, where no
      other category has that name. */
  lemma EditResult(cats: Catalog.Categories, originalId: string, id: string, name: string)
    ensures Edit(cats, originalId, id, name).0 != Done ==> Edit(cats, originalId, id, name).1 == cats
    ensures Edit(cats, originalId, id, name).0 == Done ==>
      && Edit(cats, originalId, id, name).1 == (cats - {originalId})[id := name]
      && forall k :: k in cats - {originalId} && k != id ==> cats[k] != name
  {
    if Blank(id) || Blank(name) || Clashes(cats, id, name, Some(originalId)) {
      assert Edit(cats, originalId, id, name) == (if Blank(id) || Blank(name) then FieldsRequired else AlreadyExists, cats);
    } else if id == originalId && originalId !in cats {
      assert Edit(cats, originalId, id, name) == (UpdateFailed, cats);
    } else {
      EditResultMap(cats, originalId, id, name);
      EditResultNames(cats, originalId, id, name);
    }
  }

  lemma EditResultMap(cats: Catalog.Categories, originalId: string, id: string, name: string)
    requires Edit(cats, originalId, id, name).0 == Done
    ensures Edit(cats, originalId, id, name).1 == (cats - {originalId})[id := name]
  {
    if id == originalId {
      UpdateIsReplace(cats, id, name);
    }
  }

  lemma EditResultNames(cats: Catalog.Categories, originalId: string, id: string, name: string)
    requires Edit(cats, originalId, id, name).0 == Done
    ensures forall k :: k in cats - {originalId} && k != id ==> cats[k] != name
  {
    assert !Clashes(cats, id, name, Some(originalId));
    forall k | k in cats - {originalId} && k != id
      ensures cats[k] != name
    {
      assert k in cats && Some(k) != Some(originalId);
    }
  }

  lemma RemoveKeepsUniqueNames<K, V>(m: map<K, V>, x: K)
    requires UniqueNames(m)
    ensures UniqueNames(m - {x})
  {
  }

  /** Mapping an id to a name no other id has keeps names unique. */
  lemma InsertKeepsUniqueNames<K, V>(m: map<K, V>, id: K, name: V)
    requires UniqueNames(m)
    requires forall k :: k in m && k != id ==> m[k] != name
    ensures UniqueNames(m[id := name])
  {
  }

  lemma DeleteKeepsUniqueNames(cats: Catalog.Categories, id: string)
    requires UniqueNames(cats)
    ensures UniqueNames(Delete(cats, id))
  {
    RemoveKeepsUniqueNames(cats, id);
  }

  /** A successful rename of an existing category keeps the number of
      categories. */
  lemma EditKeepsCount(cats: Catalog.Categories, originalId: string, id: string, name: string)
    requires originalId in cats
    requires Edit(cats, originalId, id, name).0 == Done
    ensures |Edit(cats, originalId, id, name).1| == |cats|
  {
    EditResult(cats, originalId, id, name);
    var rest := cats - {originalId};
    assert |rest| == |cats| - 1;
    if id != originalId {
      assert !Clashes(cats, id, name, Some(originalId));
      assert id !in rest;
    }
  }

  // -----------------------------------------------------------------------
  // The collection

  class CategoryCollection {
    var docs: Catalog.Categories

    constructor (initial: Catalog.Categories)
      ensures docs == initial
    {
      docs := initial;
    }

    method HandleAddCategory(id: string, name: string) returns (o: Outcome)
      modifies this
      ensures (o, docs) == Add(old(docs), id, name)
    {
      if Blank(id) || Blank(name) {
        return FieldsRequired;
      }
      if Clashes(docs, id, name, None) {
        return AlreadyExists;
      }
      docs := docs[id := name];
      o := Done;
    }

    /** The rename path is two writes: the delete, then the set. */
    method HandleEditCategory(originalId: string, id: string, name: string) returns (o: Outcome)
      modifies this
      ensures (o, docs) == Edit(old(docs), originalId, id, name)
    {
      if Blank(id) || Blank(name) {
        return FieldsRequired;
      }
      if Clashes(docs, id, name, Some(originalId)) {
        return AlreadyExists;
      }
      if id != originalId {
        docs := docs - {originalId};
        docs := docs[id := name];
      } else {
        if originalId !in docs {
          return UpdateFailed;
        }
        docs := docs[id := name];
      }
      o := Done;
    }

    method HandleDeleteCategory(id: string)
      modifies this
      ensures docs == Delete(old(docs), id)
    {
      if id != "" {
        docs := docs - {id};
      }
    }
  }
}
