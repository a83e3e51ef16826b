/** The entity inspector's data logic: which entity is inspected, which
    component fields the inspector shows, how an edit of the shown text is
    merged back into the component, and which component type the "Add
    Component" button adds. Components are sequences of (key, value) fields
    in their own key order. */
module Inspector {
  import opened Results

  /** The schema types a component field can declare. */
  datatype FieldType = NumberType | BooleanType | StringType | ArrayType | RefType | JsonType | CustomType(name: string)

  /** A registered component type: its class name and its schema. */
  datatype ComponentType = ComponentType(name: string, schema: map<string, FieldType>)

  /** An entity with the component types attached to it, in order. */
  datatype Entity = Entity(id: nat, components: seq<ComponentType>)

  /** The static `inspectEntity` of the inspector system. */
  datatype InspectorState = InspectorState(inspectEntity: Option<Entity>)

  /** `updateEntityInspector(entity)`: select `entity`, or nothing for null. */
  function UpdateEntityInspector(s: InspectorState, entity: Option<Entity>): (s': InspectorState)
    ensures s'.inspectEntity == entity
  {
    s.(inspectEntity := entity)
  }

  // ---------------------------------------------------------------------
  // Fields and schemas.

  /** A JSON-representable field value. */
  datatype Value =
    | Null
    | Boolean(b: bool)
    | Number(n: real)
    | Text(s: string)
    | List(items: seq<Value>)
    | Object(entries: seq<Field>)

  /** One own property of a component, or one key of a parsed object. */
  datatype Field = Field(key: string, value: Value)

  function Keys(fields: seq<Field>): (ks: seq<string>)
    ensures |ks| == |fields|
    ensures forall i :: 0 <= i < |fields| ==> ks[i] == fields[i].key
  {
    if fields == [] then [] else [fields[0].key] + Keys(fields[1..])
  }

  /** No key occurs twice, as for the own keys of any object. */
  predicate UniqueKeys(fields: seq<Field>)
  {
    Distinct(Keys(fields))
  }

  /** The value of `key`, from its first field. */
  function Lookup(fields: seq<Field>, key: string): (r: Option<Value>)
    ensures r.None? <==> key !in Keys(fields)
    ensures r.Some? ==> Field(key, r.value) in fields
  {
    if fields == [] then None
    else if fields[0].key == key then Some(fields[0].value)
    else Lookup(fields[1..], key)
  }

  // ---------------------------------------------------------------------
  // The shown fields.

  /** A key is shown when the schema declares it with a type other than `Ref`. */
  predicate Shown(schema: map<string, FieldType>, key: string)
  {
    key in schema && schema[key] != RefType
  }

  /** The entries `getComponentString` serialises: the component's own fields
      that the schema shows, with their own values, in own key order. */
  function ComponentEntries(fields: seq<Field>, schema: map<string, FieldType>): (r: seq<Field>)
    ensures forall f :: f in r <==> f in fields && Shown(schema, f.key)
    ensures |r| <= |fields|
  {
    if fields == [] then []
    else if Shown(schema, fields[0].key) then [fields[0]] + ComponentEntries(fields[1..], schema)
    else ComponentEntries(fields[1..], schema)
  }

  /** `a` is `b` with some entries removed, the rest in their order. */
  predicate Subsequence<T(==)>(a: seq<T>, b: seq<T>)
    decreases |b|
  {
    if a == [] then true
    else if b == [] then false
    else if a[0] == b[0] then Subsequence(a[1..], b[1..])
    else Subsequence(a, b[1..])
  }

  /** The shown entries keep the component's key order. */
  lemma {:induction false} EntriesInOrder(fields: seq<Field>, schema: map<string, FieldType>)
    ensures Subsequence(ComponentEntries(fields, schema), fields)
  {
    if fields != [] {
      EntriesInOrder(fields[1..], schema);
      var rest := ComponentEntries(fields[1..], schema);
      if Shown(schema, fields[0].key) {
        assert ([fields[0]] + rest)[1..] == rest;
      } else {
        SubsequenceOfTail(rest, fields);
      }
    }
  }

  lemma {:induction false} SubsequenceOfTail<T>(a: seq<T>, b: seq<T>)
    requires b != [] && Subsequence(a, b[1..])
    ensures Subsequence(a, b)
    decreases |b|, 0
  {
    if a != [] && a[0] == b[0] {
      SubsequenceDropHead(a, b[1..]);
    }
  }

  lemma {:induction false} SubsequenceDropHead<T>(a: seq<T>, b: seq<T>)
    requires a != [] && Subsequence(a, b)
    ensures Subsequence(a[1..], b)
    decreases |b|, 1
  {
    if a[0] == b[0] {
      if a[1..] != [] {
        SubsequenceOfTail(a[1..], b);
      }
    } else {
      SubsequenceDropHead(a, b[1..]);
      if a[1..] != [] {
        SubsequenceOfTail(a[1..], b);
      }
    }
  }

  /** A subsequence of a sequence with unique keys has unique keys, so the
      serialised object has one entry per shown field. */
  lemma {:induction false} EntriesUnique(fields: seq<Field>, schema: map<string, FieldType>)
    requires UniqueKeys(fields)
    ensures UniqueKeys(ComponentEntries(fields, schema))
  {
    if fields != [] {
      var tail := fields[1..];
      assert UniqueKeys(tail) by {
        assert Keys(tail) == Keys(fields)[1..];
      }
      EntriesUnique(tail, schema);
      var rest := ComponentEntries(tail, schema);
      if Shown(schema, fields[0].key) {
        assert fields[0].key !in Keys(tail) by {
          DistinctNotLater(Keys(fields), 0);
        }
        assert fields[0].key !in Keys(rest) by {
          forall j | 0 <= j < |rest| ensures Keys(rest)[j] != fields[0].key {
            KeyOfMember(rest[j], tail);
          }
        }
        var r := [fields[0]] + rest;
        assert Keys(r) == [fields[0].key] + Keys(rest);
      }
    }
  }

  lemma {:induction false} KeyOfMember(f: Field, fields: seq<Field>)
    requires f in fields
    ensures f.key in Keys(fields)
  {
    if fields[0] != f {
      KeyOfMember(f, fields[1..]);
    }
  }

  // ---------------------------------------------------------------------
  // Editing the shown text.

  /** `component[key] = value`: overwrite an own key in place, or add it last. */
  function SetField(fields: seq<Field>, key: string, value: Value): seq<Field>
  {
    if fields == [] then [Field(key, value)]
    else if fields[0].key == key then [Field(key, value)] + fields[1..]
    else [fields[0]] + SetField(fields[1..], key, value)
  }

  /** After the assignment the key holds the value and every other key is unchanged. */
  lemma {:induction false} SetFieldLookup(fields: seq<Field>, key: string, value: Value, k: string)
    ensures Lookup(SetField(fields, key, value), k) == if k == key then Some(value) else Lookup(fields, k)
  {
    if fields != [] && fields[0].key != key {
      var rest := SetField(fields[1..], key, value);
      assert ([fields[0]] + rest)[1..] == rest;
      SetFieldLookup(fields[1..], key, value, k);
    } else if fields != [] {
      assert ([Field(key, value)] + fields[1..])[1..] == fields[1..];
    }
  }

  /** An existing key keeps its place; a new key is added after all others. */
  lemma {:induction false} SetFieldKeys(fields: seq<Field>, key: string, value: Value)
    ensures key in Keys(fields) ==> Keys(SetField(fields, key, value)) == Keys(fields)
    ensures key !in Keys(fields) ==> Keys(SetField(fields, key, value)) == Keys(fields) + [key]
  {
    if fields != [] {
      var r := SetField(fields, key, value);
      assert Keys(fields) == [fields[0].key] + Keys(fields[1..]);
      if fields[0].key == key {
        assert Keys(r) == [key] + Keys(fields[1..]);
      } else {
        SetFieldKeys(fields[1..], key, value);
        assert Keys(r) == [fields[0].key] + Keys(SetField(fields[1..], key, value));
      }
    }
  }

  /** `Object.keys(parsed).forEach(key => component[key] = parsed[key])`. */
  function Merge(fields: seq<Field>, parsed: seq<Field>): (r: seq<Field>)
    // Every parsed key overwrites its field; every other field keeps its value.
    ensures UniqueKeys(parsed) ==>
              forall k :: Lookup(r, k) == if k in Keys(parsed) then Lookup(parsed, k) else Lookup(fields, k)
    decreases |parsed|
  {
    if parsed == [] then fields
    else
      var next := SetField(fields, parsed[0].key, parsed[0].value);
      var r := Merge(next, parsed[1..]);
      assert forall k :: Lookup(next, k) == if k == parsed[0].key then Some(parsed[0].value) else Lookup(fields, k) by {
        forall k ensures Lookup(next, k) == if k == parsed[0].key then Some(parsed[0].value) else Lookup(fields, k) {
          SetFieldLookup(fields, parsed[0].key, parsed[0].value, k);
        }
      }
      assert Keys(parsed[1..]) == Keys(parsed)[1..];
      assert UniqueKeys(parsed) ==> parsed[0].key !in Keys(parsed[1..]) by {
        if UniqueKeys(parsed) {
          DistinctNotLater(Keys(parsed), 0);
        }
      }
      r
  }

  /** What the text box's content parses to: an object's keys and values in
      order, or a syntax error. */
  datatype Parse = Parsed(entries: seq<Field>) | ParseError

  /** `target.textContent || "{}"`: a null or empty text reads as an empty object. */
  function EditedText(text: Option<string>): (t: string)
    ensures t != ""
    ensures text.None? || text.value == "" ==> t == "{}"
    ensures text.Some? && text.value != "" ==> t == text.value
  {
    if text.None? || text.value == "" then "{}" else text.value
  }

  /** The input handler: parse the edited text with `parse` and merge the
      result, or leave the component as it was when parsing throws. */
  function OnInput(fields: seq<Field>, text: Option<string>, parse: string -> Parse): (r: seq<Field>)
    ensures parse(EditedText(text)).ParseError? ==> r == fields
    ensures parse(EditedText(text)).Parsed? && UniqueKeys(parse(EditedText(text)).entries) ==>
              forall k :: Lookup(r, k) ==
                if k in Keys(parse(EditedText(text)).entries) then Lookup(parse(EditedText(text)).entries, k)
                else Lookup(fields, k)
  {
    match parse(EditedText(text))
    case ParseError => fields
    case Parsed(entries) => Merge(fields, entries)
  }

  /** An empty text box changes nothing when `"{}"` parses to the empty object. */
  lemma EmptyEditChangesNothing(fields: seq<Field>, parse: string -> Parse)
    requires parse("{}") == Parsed([])
    ensures forall k :: Lookup(OnInput(fields, None, parse), k) == Lookup(fields, k)
    ensures forall k :: Lookup(OnInput(fields, Some(""), parse), k) == Lookup(fields, k)
  {
    assert Keys([]) == [];
  }

  // ---------------------------------------------------------------------
  // Adding a component.

  /** The index of the first registered component type called `name`. */
  function FindByName(registry: seq<ComponentType>, name: string): (r: Option<nat>)
    ensures r.Some? ==> r.value < |registry| && registry[r.value].name == name
    ensures r.Some? ==> forall j :: 0 <= j < r.value ==> registry[j].name != name
    ensures r.None? <==> forall j :: 0 <= j < |registry| ==> registry[j].name != name
  {
    if registry == [] then None
    else if registry[0].name == name then Some(0)
    else match FindByName(registry[1..], name)
      case None => None
      case Some(i) => Some(i + 1)
  }

  /** The "Add Component" button: add the first registered type whose name is
      the selected one and re-select the entity, or change nothing. */
  function OnAddComponent(s: InspectorState, entity: Entity, registry: seq<ComponentType>, selected: string)
    : (r: (InspectorState, Entity))
    ensures forall i :: (0 <= i < |registry| && registry[i].name == selected
                         && (forall j :: 0 <= j < i ==> registry[j].name != selected)) ==>
              && r.1 == entity.(components := entity.components + [registry[i]])
              && r.0.inspectEntity == Some(r.1)
    ensures (forall j :: 0 <= j < |registry| ==> registry[j].name != selected) ==> r == (s, entity)
  {
    match FindByName(registry, selected)
    case None => (s, entity)
    case Some(i) =>
      var added := entity.(components := entity.components + [registry[i]]);
      (UpdateEntityInspector(s, Some(added)), added)
  }
}
