/** The DynamoDB device catalog that the device-factory Lambda fills and the
    device-command Lambda updates: items keyed by their "id" attribute. */
module DeviceCatalog {
  import opened Json

  /** Items by the value of their key attribute "id". */
  type Catalog = map<Json, Doc>

  /** Status written when a device is provisioned, and when its container reports in. */
  const Provisioned := "PROV"
  const Running := "RUNNING"

  /** Every item is stored under the value of its own "id" attribute. */
  predicate WellKeyed(catalog: Catalog) {
    forall k :: k in catalog ==> "id" in catalog[k] && catalog[k]["id"] == k
  }

  /** `table.put_item(Item=item)`: the item replaces whatever had its key. */
  function PutItem(catalog: Catalog, item: Doc): (c: Catalog)
    requires "id" in item
    ensures c.Keys == catalog.Keys + {item["id"]}
    ensures c[item["id"]] == item
    ensures forall k :: k in catalog && k != item["id"] ==> c[k] == catalog[k]
  {
    catalog[item["id"] := item]
  }

  /** `table.get_item(Key={"id": id})["Item"]`; None where the subscript raises
      KeyError because no item has that key. */
  function GetItem(catalog: Catalog, id: Json): (r: Option<Doc>)
    ensures r.Some? <==> id in catalog
    ensures r.Some? ==> r.value == catalog[id]
  {
    if id in catalog then Some(catalog[id]) else None
  }

  /** `table.update_item` with `SET` of the attributes in `attrs`: the item is
      created (holding only its key) when missing, the named attributes are
      overwritten and the others kept. */
  function SetAttributes(catalog: Catalog, id: Json, attrs: Doc): (c: Catalog)
    ensures c.Keys == catalog.Keys + {id}
    ensures forall a :: a in attrs ==> a in c[id] && c[id][a] == attrs[a]
    ensures id in catalog ==>
      forall a :: a in catalog[id] && a !in attrs ==> a in c[id] && c[id][a] == catalog[id][a]
    ensures forall k :: k in catalog && k != id ==> c[k] == catalog[k]
  {
    var old_item := if id in catalog then catalog[id] else map["id" := id];
    catalog[id := old_item + attrs]
  }

  /** Both writes keep every item under its own key, provided an update does
      not overwrite the key attribute. */
  lemma {:induction false} WritesKeepKeys(catalog: Catalog, item: Doc, id: Json, attrs: Doc)
    requires WellKeyed(catalog)
    requires "id" in item
    requires "id" !in attrs
    ensures WellKeyed(PutItem(catalog, item))
    ensures WellKeyed(SetAttributes(catalog, id, attrs))
  {
    var c := SetAttributes(catalog, id, attrs);
    assert "id" in c[id] && c[id]["id"] == id;
  }
}
