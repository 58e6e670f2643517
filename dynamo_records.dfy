/**
 * DynamoDB items as the mappers read them: a map from attribute name to an
 * attribute value, of which only the string (`S`), number (`N`) and map
 * (`M`) members are ever consulted.
 */
module DynamoRecords {
  import opened Wrappers

  datatype AttributeValue = AttributeValue(S: Option<string>, N: Option<string>, M: Option<map<string, AttributeValue>>)

  type Record = map<string, AttributeValue>

  /** `item.<name>?.S` */
  function StringAttr(item: Record, name: string): (r: Option<string>)
    ensures r.Some? <==> name in item && item[name].S.Some?
    ensures r.Some? ==> r.value == item[name].S.value
  {
    if name in item then item[name].S else None
  }

  /** `item.<name>?.N` */
  function NumberAttr(item: Record, name: string): (r: Option<string>)
    ensures r.Some? <==> name in item && item[name].N.Some?
    ensures r.Some? ==> r.value == item[name].N.value
  {
    if name in item then item[name].N else None
  }

  /** `item.<name>?.M?.<member>?.S`: a string inside a map attribute. */
  function NestedStringAttr(item: Record, name: string, member: string): (r: Option<string>)
    ensures r.Some? <==>
      name in item && item[name].M.Some? && member in item[name].M.value && item[name].M.value[member].S.Some?
    ensures r.Some? ==> r.value == item[name].M.value[member].S.value
  {
    if name in item && item[name].M.Some? then StringAttr(item[name].M.value, member) else None
  }

  /** JavaScript truthiness of an optional string: present and not empty. */
  predicate Truthy(v: Option<string>) {
    v.Some? && v.value != ""
  }

  /** `v || null`: the empty string counts as missing. */
  function OrNull(v: Option<string>): (r: Option<string>)
    ensures r.None? <==> !Truthy(v)
    ensures r.Some? ==> r == v
  {
    if Truthy(v) then v else None
  }

  /** Two items agree on the attributes named in `names`. */
  predicate AgreeOn(a: Record, b: Record, names: set<string>) {
    forall n :: n in names ==> (n in a <==> n in b) && (n in a ==> a[n] == b[n])
  }
}
