/** Abstract stand-ins for the host system's entities, field item lists and lookups. */
module Entities {
  import opened Wrappers
  import opened JsonValues

  /** An entity is addressed by its entity type id ("node", "taxonomy_term", "file", ...) and its id. */
  type EntityKey = (string, int)

  /** One field item: its property array in order (`$item->getValue()`), and the entity its
      `entity` property refers to, when it is a reference item. */
  datatype FieldItem = FieldItem(props: seq<(string, Json)>, target: Option<EntityKey>)

  /** A field item list: the field's machine name, its declared field type, the
      `target_type` setting of its item definition, and its items in delta order. */
  datatype FieldItemList = FieldItemList(name: string, fieldType: string, targetType: string, items: seq<FieldItem>)

  /** A content entity. `title` is a node's title or a term's name; `fileUri` is a file's URI. */
  datatype Entity = Entity(
    entityType: string,
    bundle: string,
    id: int,
    title: string,
    fileUri: string,
    fields: map<string, FieldItemList>)

  /** The host site: the entity storage and the file URL generator. */
  datatype Site = Site(entities: map<EntityKey, Entity>, absoluteUrl: string -> string)

  /** `$values[key]`, NULL when the array has no such key. */
  function PropIn(props: seq<(string, Json)>, key: string): Json
  {
    if props == [] then Null
    else if props[0].0 == key then props[0].1
    else PropIn(props[1..], key)
  }

  /** `$item[key]` on a field item's value array. */
  function Prop(item: FieldItem, key: string): Json
  {
    PropIn(item.props, key)
  }
}
