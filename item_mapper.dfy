/** `mapDdbResponseToItem` of `mappers/Item.js`. */
module ItemMapper {
  import opened Wrappers
  import opened DynamoRecords

  /** The API `Item`; `sk` is `None` when it stays `undefined`. */
  datatype Item = Item(
    sk: Option<string>,
    item_id: string,
    institution_id: string,
    institution_name: string,
    created_at: string,
    pk: string,
    typename: string)

  /** The attributes `mapDdbResponseToItem` reads. */
  const ItemAttributes: set<string> :=
    {"sk", "item_id", "institution_id", "institution_name", "created_at", "pk"}

  /** `v ?? ''`: only a missing value is defaulted; a present empty string stays. */
  function OrEmpty(v: Option<string>): (r: string)
    ensures v.Some? ==> r == v.value
    ensures v.None? ==> r == ""
  {
    v.GetOr("")
  }

  /** `mapDdbResponseToItem`. */
  function MapDdbResponseToItem(item: Record): (r: Item)
    ensures r.typename == "Item"
    ensures r.sk == StringAttr(item, "sk")
    ensures r.item_id == (if StringAttr(item, "item_id").Some? then StringAttr(item, "item_id").value else "")
    ensures r.institution_id == (if StringAttr(item, "institution_id").Some? then StringAttr(item, "institution_id").value else "")
    ensures r.institution_name == (if StringAttr(item, "institution_name").Some? then StringAttr(item, "institution_name").value else "")
    ensures r.created_at == (if StringAttr(item, "created_at").Some? then StringAttr(item, "created_at").value else "")
    ensures r.pk == (if StringAttr(item, "pk").Some? then StringAttr(item, "pk").value else "")
  {
    Item(
      StringAttr(item, "sk"),
      OrEmpty(StringAttr(item, "item_id")),
      OrEmpty(StringAttr(item, "institution_id")),
      OrEmpty(StringAttr(item, "institution_name")),
      OrEmpty(StringAttr(item, "created_at")),
      OrEmpty(StringAttr(item, "pk")),
      "Item")
  }

  /** Only the six attributes the mapper names reach the mapped item. */
  lemma ItemReadsOnlyItsAttributes(a: Record, b: Record)
    requires AgreeOn(a, b, ItemAttributes)
    ensures MapDdbResponseToItem(a) == MapDdbResponseToItem(b)
  {
    assert "sk" in ItemAttributes && "item_id" in ItemAttributes && "institution_id" in ItemAttributes;
    assert "institution_name" in ItemAttributes && "created_at" in ItemAttributes && "pk" in ItemAttributes;
  }

  /**
   * `sk` alone keeps the difference between an absent attribute and a
   * present one: the other five fields map both to the same text.
   */
  lemma SkKeepsAbsence(item: Record)
    requires "sk" !in item && "pk" !in item
    ensures MapDdbResponseToItem(item).sk.None?
    ensures MapDdbResponseToItem(item[ "sk" := AttributeValue(Some(""), None, None)]).sk == Some("")
    ensures MapDdbResponseToItem(item).pk == MapDdbResponseToItem(item[ "pk" := AttributeValue(Some(""), None, None)]).pk == ""
  {
  }
}
