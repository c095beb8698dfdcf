/** ValueHandler::getValue and ValueHandler::getValueByPath: a path is tokenized and then
    walked from a node through its fields and referenced entities; the field reached is
    serialized by its type. */
module ValueHandler {
  import opened Wrappers
  import opened JsonValues
  import opened Entities
  import opened PathSyntax
  import opened Serialization

  /** The walk's cursor `$value`: an entity, a field item list, or NULL once a step failed. */
  datatype Cursor = AtEntity(e: Entity) | AtField(f: FieldItemList) | Gone

  /** One step of the walk. A name step on an entity takes the field of that name
      (`$entity->get($name)`, which throws for an unknown field). An index step on a field
      takes item n and follows its `entity` property to the referenced entity. Every other
      combination throws in the host, which the walk turns into NULL. */
  function Advance(site: Site, c: Cursor, step: Step): (r: Cursor)
    ensures r.AtField? <==> c.AtEntity? && step.Name? && step.name in c.e.fields
    ensures r.AtField? ==> r.f == c.e.fields[step.name]
    ensures r.AtEntity? <==>
      c.AtField? && step.Index? && step.n < |c.f.items| &&
      c.f.items[step.n].target.Some? && c.f.items[step.n].target.value in site.entities
    ensures r.AtEntity? ==> r.e == site.entities[c.f.items[step.n].target.value]
  {
    match (c, step)
    case (AtEntity(e), Name(n)) =>
      if n in e.fields then AtField(e.fields[n]) else Gone
    case (AtField(f), Index(k)) =>
      if k < |f.items| && f.items[k].target.Some? && f.items[k].target.value in site.entities
      then AtEntity(site.entities[f.items[k].target.value])
      else Gone
    case _ => Gone
  }

  /** The whole walk, step after step. Once a step has failed, the rest of the path changes
      nothing; a walk that ends on a field ended with a name step, and one that ends on an
      entity after at least one step ended with an index step. */
  function Walk(site: Site, c: Cursor, steps: seq<Step>): (r: Cursor)
    ensures c.Gone? ==> r.Gone?
    ensures r.AtField? && steps != [] ==> steps[|steps| - 1].Name?
    ensures r.AtEntity? && steps != [] ==> steps[|steps| - 1].Index?
    decreases |steps|
  {
    if steps == [] then c
    else
      var r := Walk(site, Advance(site, c, steps[0]), steps[1..]);
      assert steps[1..] != [] ==> steps[1..][|steps[1..]| - 1] == steps[|steps| - 1];
      r
  }

  /** Walking a path in two parts is walking it in one. */
  lemma {:induction false} WalkAppend(site: Site, c: Cursor, a: seq<Step>, b: seq<Step>)
    ensures Walk(site, c, a + b) == Walk(site, Walk(site, c, a), b)
    decreases |a|
  {
    if a != [] {
      assert (a + b)[0] == a[0];
      assert (a + b)[1..] == a[1..] + b;
      WalkAppend(site, Advance(site, c, a[0]), a[1..], b);
    } else {
      assert a + b == b;
    }
  }

  /** The first step that fails stops the walk: the path resolves to nothing. */
  lemma WalkStops(site: Site, c: Cursor, steps: seq<Step>, i: nat)
    requires i < |steps|
    requires Advance(site, Walk(site, c, steps[..i]), steps[i]) == Gone
    ensures Walk(site, c, steps) == Gone
  {
    assert steps == steps[..i] + steps[i..];
    WalkAppend(site, c, steps[..i], steps[i..]);
  }

  /** getValueByPath: tokenize, walk with `break` on the first failure (or, in strict mode,
      the error "Invalid path: <path>"), then serialize what the walk reached. */
  method GetValueByPath(site: Site, node: Entity, path: string, failOnError: bool) returns (r: Result<Json, string>)
    ensures !failOnError ==> r.Success?
    ensures var end := Walk(site, AtEntity(node), Tokenize(path));
      (failOnError && end.Gone? ==> r == Failure("Invalid path: " + path)) &&
      (end.AtField? ==> r == Success(Serialized(site, end.f))) &&
      (end.AtEntity? || (end.Gone? && !failOnError) ==> r == Success(Null))
  {
    var steps := Tokenize(path);
    var value := AtEntity(node);
    var i := 0;
    while i < |steps|
      invariant 0 <= i <= |steps|
      invariant !value.Gone?
      invariant Walk(site, AtEntity(node), steps) == Walk(site, value, steps[i..])
    {
      var next := Advance(site, value, steps[i]);
      if next.Gone? {
        if failOnError {
          return Failure("Invalid path: " + path);
        }
        value := Gone;
        break;
      }
      value := next;
      i := i + 1;
    }
    match value
    case AtField(f) =>
      var v := GetSerializedValueByType(site, f);
      r := Success(v);
    case _ =>
      r := Success(Null);
  }

  /** getValue: a path is resolved only against a node; anything else gives NULL. */
  method GetValue(site: Site, item: Option<Entity>, path: string) returns (r: Json)
    ensures item.None? || item.value.entityType != "node" ==> r == Null
    ensures item.Some? && item.value.entityType == "node" ==>
      var end := Walk(site, AtEntity(item.value), Tokenize(path));
      r == if end.AtField? then Serialized(site, end.f) else Null
  {
    if item.Some? && item.value.entityType == "node" {
      var result := GetValueByPath(site, item.value, path, false);
      r := result.value;
    } else {
      r := Null;
    }
  }

  /** A path through a reference: `images[0].uri` reads field `uri` of the entity that
      item 0 of field `images` refers to, and gives nothing when there is no item 0. */
  lemma ReferencePathExample(site: Site, node: Entity, media: Entity, key: EntityKey, uri: FieldItemList)
    requires "images" in node.fields && "uri" in media.fields && media.fields["uri"] == uri
    requires key in site.entities && site.entities[key] == media
    ensures var images := node.fields["images"];
      var end := Walk(site, AtEntity(node), Tokenize("images[0].uri"));
      (|images.items| > 0 && images.items[0].target == Some(key) ==> end == AtField(uri)) &&
      (|images.items| == 0 ==> end == Gone)
  {
    TokenizeExample();
    var steps := [Name("images"), Index(0), Name("uri")];
    var images := node.fields["images"];
    var c1 := Advance(site, AtEntity(node), Name("images"));
    var c2 := Advance(site, c1, Index(0));
    var c3 := Advance(site, c2, Name("uri"));
    assert c1 == AtField(images);
    assert Walk(site, c2, [Name("uri")]) == c3 by {
      assert [Name("uri")][1..] == [];
    }
    assert Walk(site, c1, [Index(0), Name("uri")]) == c3 by {
      assert [Index(0), Name("uri")][1..] == [Name("uri")];
    }
    assert Walk(site, AtEntity(node), steps) == c3 by {
      assert steps[1..] == [Index(0), Name("uri")];
    }
  }
}
