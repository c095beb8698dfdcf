/** ValueHandler::getSerializedValueByType: a field item list becomes a plain value,
    by the field's declared type, with two field names of type `string` handled apart. */
module Serialization {
  import opened Wrappers
  import opened JsonValues
  import opened Entities
  import PathSyntax

  // ----- Lookups in the host's entity storage -----

  /** An entity id as PHP array keys see it: an integer, or a string of decimal digits. */
  function AsId(v: Json): Option<int>
  {
    match v
    case Int(i) => Some(i)
    case Str(s) => if s != [] && PathSyntax.AllDigits(s) then Some(PathSyntax.DigitsValue(s)) else None
    case _ => None
  }

  /** `array_values($item)`: the values of one item's property array, in order. */
  function ItemValues(item: FieldItem): seq<Json>
  {
    seq(|item.props|, i requires 0 <= i < |item.props| => item.props[i].1)
  }

  /** Every item's values, item after item (the nested loop over `$field->getValue()`). */
  function FlatIds(items: seq<FieldItem>): seq<Json>
    decreases |items|
  {
    if items == [] then [] else FlatIds(items[..|items| - 1]) + ItemValues(items[|items| - 1])
  }

  /** The position of the first mention of id `i` in `ids`, or `|ids|` when there is none. */
  function FirstMention(ids: seq<Json>, i: int): (p: nat)
    ensures p <= |ids|
    ensures p < |ids| ==> AsId(ids[p]) == Some(i)
    ensures forall q :: 0 <= q < p ==> AsId(ids[q]) != Some(i)
    decreases |ids|
  {
    if ids == [] then 0
    else if AsId(ids[0]) == Some(i) then 0
    else 1 + FirstMention(ids[1..], i)
  }

  /** An id mentioned before the last element is first mentioned where it is first
      mentioned in the prefix. */
  lemma FirstMentionPrefix(ids: seq<Json>, i: int)
    requires ids != [] && FirstMention(ids[..|ids| - 1], i) < |ids| - 1
    ensures FirstMention(ids, i) == FirstMention(ids[..|ids| - 1], i)
  {
    var pre := ids[..|ids| - 1];
    var p := FirstMention(pre, i);
    assert AsId(ids[p]) == Some(i) by { assert pre[p] == ids[p]; }
    assert forall q :: 0 <= q < p ==> AsId(ids[q]) != Some(i) by {
      assert forall q :: 0 <= q < p ==> pre[q] == ids[q];
    }
  }

  /** The ids `loadMultiple($ids)` finds: each id mentioned in `ids` that exists in the
      storage, in order of first mention, each once (see LoadedIdsMembers and
      LoadedIdsOrder). */
  function LoadedIds(site: Site, entityType: string, ids: seq<Json>): (r: seq<int>)
    ensures forall k :: 0 <= k < |r| ==> (entityType, r[k]) in site.entities
    decreases |ids|
  {
    if ids == [] then []
    else
      var prev := LoadedIds(site, entityType, ids[..|ids| - 1]);
      match AsId(ids[|ids| - 1])
      case Some(i) => if (entityType, i) in site.entities && i !in prev then prev + [i] else prev
      case None => prev
  }

  /** An id is loaded exactly when it exists in the storage and `ids` mentions it. */
  lemma {:induction false} LoadedIdsMembers(site: Site, entityType: string, ids: seq<Json>)
    ensures forall i :: i in LoadedIds(site, entityType, ids) <==>
      (entityType, i) in site.entities && exists j :: 0 <= j < |ids| && AsId(ids[j]) == Some(i)
    decreases |ids|
  {
    if ids != [] {
      var pre := ids[..|ids| - 1];
      LoadedIdsMembers(site, entityType, pre);
      assert forall j :: 0 <= j < |ids| - 1 ==> pre[j] == ids[j];
    }
  }

  /** The loaded ids come in order of their first mention in `ids`, so none comes twice. */
  lemma {:induction false} LoadedIdsOrder(site: Site, entityType: string, ids: seq<Json>)
    ensures forall k :: 0 <= k < |LoadedIds(site, entityType, ids)| ==>
      FirstMention(ids, LoadedIds(site, entityType, ids)[k]) < |ids|
    ensures forall j, k :: 0 <= j < k < |LoadedIds(site, entityType, ids)| ==>
      FirstMention(ids, LoadedIds(site, entityType, ids)[j]) < FirstMention(ids, LoadedIds(site, entityType, ids)[k])
    decreases |ids|
  {
    if ids != [] {
      var pre := ids[..|ids| - 1];
      var prev := LoadedIds(site, entityType, pre);
      LoadedIdsOrder(site, entityType, pre);
      LoadedPrefix(ids, prev);
      match AsId(ids[|ids| - 1])
      case Some(i) =>
        if (entityType, i) in site.entities && i !in prev {
          LoadedIdsMembers(site, entityType, pre);
          FirstMentionLast(ids, i);
        }
      case None =>
    }
  }

  /** An id that only the last element mentions is first mentioned there. */
  lemma FirstMentionLast(ids: seq<Json>, i: int)
    requires ids != [] && AsId(ids[|ids| - 1]) == Some(i)
    requires FirstMention(ids[..|ids| - 1], i) == |ids| - 1
    ensures FirstMention(ids, i) == |ids| - 1
  {
    var pre := ids[..|ids| - 1];
    forall q | 0 <= q < |ids| - 1
      ensures AsId(ids[q]) != Some(i)
    {
      assert pre[q] == ids[q];
    }
  }

  /** Ids first mentioned in the prefix keep their first mention in the whole sequence. */
  lemma LoadedPrefix(ids: seq<Json>, prev: seq<int>)
    requires ids != []
    requires forall k :: 0 <= k < |prev| ==> FirstMention(ids[..|ids| - 1], prev[k]) < |ids| - 1
    ensures forall k :: 0 <= k < |prev| ==>
      FirstMention(ids, prev[k]) == FirstMention(ids[..|ids| - 1], prev[k]) < |ids| - 1
  {
    forall k | 0 <= k < |prev|
      ensures FirstMention(ids, prev[k]) == FirstMention(ids[..|ids| - 1], prev[k]) < |ids| - 1
    {
      FirstMentionPrefix(ids, prev[k]);
    }
  }

  /** `Node::loadMultiple($ids)` / `Term::loadMultiple($ids)`. */
  function Loaded(site: Site, entityType: string, ids: seq<Json>): seq<Entity>
  {
    var found := LoadedIds(site, entityType, ids);
    seq(|found|, k requires 0 <= k < |found| => site.entities[(entityType, found[k])])
  }

  /** Titles (of nodes) or names (of terms), in order. */
  function Titles(es: seq<Entity>): seq<Json>
  {
    seq(|es|, k requires 0 <= k < |es| => Str(es[k].title))
  }

  /** The file an image field refers to: `File::load($field->target_id)`, where the
      magic `target_id` is that of the first item, and NULL for an empty field. */
  function ImageFile(site: Site, items: seq<FieldItem>): Option<Entity>
  {
    if items == [] then None
    else
      match AsId(Prop(items[0], "target_id"))
      case Some(id) => if ("file", id) in site.entities then Some(site.entities[("file", id)]) else None
      case None => None
  }

  // ----- The rule for each field type -----

  function ValuesOf(items: seq<FieldItem>, key: string): seq<Json>
  {
    seq(|items|, i requires 0 <= i < |items| => Prop(items[i], key))
  }

  /** The cardinality rule: one element alone, several as a list, none as NULL. */
  function Cardinal(xs: seq<Json>): Json
  {
    if |xs| == 1 then xs[0] else if |xs| > 1 then List(xs) else Null
  }

  /** Default rule, also for plain `string` fields. */
  function PlainValue(items: seq<FieldItem>): (r: Json)
    ensures |items| == 0 ==> r == Null
    ensures |items| == 1 ==> r == Prop(items[0], "value")
    ensures |items| > 1 ==>
      r.List? && |r.elems| == |items| &&
      forall i :: 0 <= i < |items| ==> r.elems[i] == Prop(items[i], "value")
  {
    Cardinal(ValuesOf(items, "value"))
  }

  function BoolsOf(items: seq<FieldItem>): seq<Json>
  {
    seq(|items|, i requires 0 <= i < |items| => Bool(Truthy(Prop(items[i], "value"))))
  }

  /** `boolean`: one truthiness test per item, with the cardinality rule. */
  function BooleanValue(items: seq<FieldItem>): (r: Json)
    ensures |items| == 0 ==> r == Null
    ensures |items| == 1 ==> r == Bool(Truthy(Prop(items[0], "value")))
    ensures |items| > 1 ==>
      r.List? && |r.elems| == |items| &&
      forall i :: 0 <= i < |items| ==> r.elems[i] == Bool(Truthy(Prop(items[i], "value")))
  {
    Cardinal(BoolsOf(items))
  }

  function RangeOf(item: FieldItem): Json
  {
    Object(map["startDate" := Prop(item, "value"), "endDate" := Prop(item, "end_value")])
  }

  /** `daterange`: a list with one start/end pair per item; NULL without items. */
  function DateRangeValue(items: seq<FieldItem>): (r: Json)
    ensures |items| == 0 ==> r == Null
    ensures |items| > 0 ==>
      r.List? && |r.elems| == |items| &&
      forall i :: 0 <= i < |items| ==>
        (r.elems[i].Object? &&
         r.elems[i].members.Keys == {"startDate", "endDate"} &&
         r.elems[i].members["startDate"] == Prop(items[i], "value") &&
         r.elems[i].members["endDate"] == Prop(items[i], "end_value"))
  {
    if items == [] then Null else List(seq(|items|, i requires 0 <= i < |items| => RangeOf(items[i])))
  }

  function NamedOf(item: FieldItem): Json
  {
    Object(map["name" := Prop(item, "value")])
  }

  /** `field_partner_organizers`: a list with one `{name: value}` per item; NULL without items. */
  function PartnerOrganizersValue(items: seq<FieldItem>): (r: Json)
    ensures |items| == 0 ==> r == Null
    ensures |items| > 0 ==>
      r.List? && |r.elems| == |items| &&
      forall i :: 0 <= i < |items| ==> r.elems[i] == Object(map["name" := Prop(items[i], "value")])
  {
    if items == [] then Null else List(seq(|items|, i requires 0 <= i < |items| => NamedOf(items[i])))
  }

  /** `field_organiser`: `{name: first value}`, whose name is NULL when the field is empty. */
  function OrganiserValue(items: seq<FieldItem>): (r: Json)
    ensures r.Object? && r.members.Keys == {"name"}
    ensures r.members["name"] == if items == [] then Null else Prop(items[0], "value")
  {
    if items == [] then Object(map["name" := Null]) else NamedOf(items[0])
  }

  /** `link`: the first item's `uri`, NULL when the field is empty. */
  function LinkValue(items: seq<FieldItem>): (r: Json)
    ensures items == [] ==> r == Null
    ensures items != [] ==> r == Prop(items[0], "uri")
  {
    if items == [] then Null else Prop(items[0], "uri")
  }

  /** `image`: the absolute URL of the referenced file's URI; NULL when there is no file
      or its URI is empty in PHP's sense ("" or "0"). */
  function ImageValue(site: Site, items: seq<FieldItem>): (r: Json)
    ensures ImageFile(site, items).None? ==> r == Null
    ensures ImageFile(site, items).Some? ==>
      var uri := ImageFile(site, items).value.fileUri;
      r == if uri == "" || uri == "0" then Null else Str(site.absoluteUrl(uri))
  {
    match ImageFile(site, items)
    case None => Null
    case Some(file) => if file.fileUri == "" || file.fileUri == "0" then Null else Str(site.absoluteUrl(file.fileUri))
  }

  /** `entity_reference`: the referenced ids are loaded by target type. Nodes give one
      title alone and several as a list; terms always give a list of names, even for
      one term; nothing loaded, or any other target type, gives NULL. */
  function ReferenceValue(site: Site, f: FieldItemList): (r: Json)
    ensures f.targetType == "node" ==>
      var es := Loaded(site, "node", FlatIds(f.items));
      (|es| == 0 ==> r == Null) &&
      (|es| == 1 ==> r == Str(es[0].title)) &&
      (|es| > 1 ==> r.List? && |r.elems| == |es| && forall k :: 0 <= k < |es| ==> r.elems[k] == Str(es[k].title))
    ensures f.targetType == "taxonomy_term" ==>
      var es := Loaded(site, "taxonomy_term", FlatIds(f.items));
      (|es| == 0 ==> r == Null) &&
      (|es| > 0 ==> r.List? && |r.elems| == |es| && forall k :: 0 <= k < |es| ==> r.elems[k] == Str(es[k].title))
    ensures f.targetType != "node" && f.targetType != "taxonomy_term" ==> r == Null
  {
    if f.targetType == "node" then
      Cardinal(Titles(Loaded(site, "node", FlatIds(f.items))))
    else if f.targetType == "taxonomy_term" then
      var names := Titles(Loaded(site, "taxonomy_term", FlatIds(f.items)));
      if names == [] then Null else List(names)
    else Null
  }

  /** The dispatch of getSerializedValueByType on the field type, and for `string`
      fields on the field name. */
  function Serialized(site: Site, f: FieldItemList): (r: Json)
    ensures f.fieldType == "image" ==> r == ImageValue(site, f.items)
    ensures f.fieldType == "link" ==> r == LinkValue(f.items)
    ensures f.fieldType == "entity_reference" ==> r == ReferenceValue(site, f)
    ensures f.fieldType == "daterange" ==> r == DateRangeValue(f.items)
    ensures f.fieldType == "boolean" ==> r == BooleanValue(f.items)
    ensures f.fieldType == "string" && f.name == "field_partner_organizers" ==> r == PartnerOrganizersValue(f.items)
    ensures f.fieldType == "string" && f.name == "field_organiser" ==> r == OrganiserValue(f.items)
    ensures f.fieldType == "string" && f.name != "field_partner_organizers" && f.name != "field_organiser" ==>
      r == PlainValue(f.items)
    ensures f.fieldType !in {"image", "link", "entity_reference", "daterange", "boolean", "string"} ==>
      r == PlainValue(f.items)
  {
    if f.fieldType == "image" then ImageValue(site, f.items)
    else if f.fieldType == "link" then LinkValue(f.items)
    else if f.fieldType == "entity_reference" then ReferenceValue(site, f)
    else if f.fieldType == "daterange" then DateRangeValue(f.items)
    else if f.fieldType == "boolean" then BooleanValue(f.items)
    else if f.fieldType == "string" && f.name == "field_partner_organizers" then PartnerOrganizersValue(f.items)
    else if f.fieldType == "string" && f.name == "field_organiser" then OrganiserValue(f.items)
    else PlainValue(f.items)
  }

  // ----- The loops of getSerializedValueByType -----

  /** The nested loop that collects every item's values as ids. */
  method CollectIds(items: seq<FieldItem>) returns (ids: seq<Json>)
    ensures ids == FlatIds(items)
  {
    ids := [];
    var i := 0;
    while i < |items|
      invariant 0 <= i <= |items|
      invariant ids == FlatIds(items[..i])
    {
      var values := ItemValues(items[i]);
      ghost var before := ids;
      var j := 0;
      while j < |values|
        invariant 0 <= j <= |values|
        invariant ids == before + values[..j]
      {
        ids := ids + [values[j]];
        j := j + 1;
        assert values[..j] == values[..j - 1] + [values[j - 1]];
      }
      assert values[..j] == values;
      assert items[..i + 1][..i] == items[..i];
      i := i + 1;
    }
    assert items[..i] == items;
  }

  /** The loop that collects each loaded entity's title (nodes) or name (terms). */
  method CollectTitles(es: seq<Entity>) returns (names: seq<Json>)
    ensures names == Titles(es)
  {
    names := [];
    for k := 0 to |es|
      invariant |names| == k
      invariant forall m :: 0 <= m < k ==> names[m] == Str(es[m].title)
    {
      names := names + [Str(es[k].title)];
    }
  }

  method SerializeReference(site: Site, f: FieldItemList) returns (value: Json)
    ensures value == ReferenceValue(site, f)
  {
    var ids := CollectIds(f.items);
    value := Null;
    if f.targetType == "node" {
      var entities := Loaded(site, "node", ids);
      if 1 < |entities| {
        var titles := CollectTitles(entities);
        value := List(titles);
      } else if |entities| == 1 {
        value := Str(entities[0].title);
      }
    } else if f.targetType == "taxonomy_term" {
      var entities := Loaded(site, "taxonomy_term", ids);
      var names := CollectTitles(entities);
      if names != [] {
        value := List(names);
      }
    }
  }

  method SerializeDateRange(items: seq<FieldItem>) returns (value: Json)
    ensures value == DateRangeValue(items)
  {
    var ranges: seq<Json> := [];
    for i := 0 to |items|
      invariant |ranges| == i
      invariant forall k :: 0 <= k < i ==> ranges[k] == RangeOf(items[k])
    {
      ranges := ranges + [Object(map["startDate" := Prop(items[i], "value"), "endDate" := Prop(items[i], "end_value")])];
    }
    value := if ranges == [] then Null else List(ranges);
  }

  method SerializeBoolean(items: seq<FieldItem>) returns (value: Json)
    ensures value == BooleanValue(items)
  {
    value := Null;
    if |items| == 1 {
      value := Bool(Truthy(Prop(items[0], "value")));
    } else if 1 < |items| {
      var bools: seq<Json> := [];
      for i := 0 to |items|
        invariant |bools| == i
        invariant forall k :: 0 <= k < i ==> bools[k] == Bool(Truthy(Prop(items[k], "value")))
      {
        bools := bools + [Bool(Truthy(Prop(items[i], "value")))];
      }
      value := List(bools);
      assert bools == BoolsOf(items);
    }
  }

  method SerializePartnerOrganizers(items: seq<FieldItem>) returns (value: Json)
    ensures value == PartnerOrganizersValue(items)
  {
    var named: seq<Json> := [];
    for i := 0 to |items|
      invariant |named| == i
      invariant forall k :: 0 <= k < i ==> named[k] == NamedOf(items[k])
    {
      named := named + [Object(map["name" := Prop(items[i], "value")])];
    }
    value := if named == [] then Null else List(named);
  }

  method SerializeDefault(items: seq<FieldItem>) returns (value: Json)
    ensures value == PlainValue(items)
  {
    value := Null;
    if |items| == 1 {
      value := Prop(items[0], "value");
    } else if 1 < |items| {
      var values: seq<Json> := [];
      for i := 0 to |items|
        invariant |values| == i
        invariant forall k :: 0 <= k < i ==> values[k] == Prop(items[k], "value")
      {
        values := values + [Prop(items[i], "value")];
      }
      value := List(values);
      assert values == ValuesOf(items, "value");
    }
  }

  /** getSerializedValueByType: the dispatch, with each branch's loops run. */
  method GetSerializedValueByType(site: Site, field: FieldItemList) returns (value: Json)
    ensures value == Serialized(site, field)
  {
    var t := field.fieldType;
    if t == "image" {
      value := ImageValue(site, field.items);
    } else if t == "link" {
      value := LinkValue(field.items);
    } else if t == "entity_reference" {
      value := SerializeReference(site, field);
    } else if t == "daterange" {
      value := SerializeDateRange(field.items);
    } else if t == "boolean" {
      value := SerializeBoolean(field.items);
    } else if t == "string" && field.name == "field_partner_organizers" {
      value := SerializePartnerOrganizers(field.items);
    } else if t == "string" && field.name == "field_organiser" {
      value := OrganiserValue(field.items);
    } else {
      value := SerializeDefault(field.items);
    }
  }
}
