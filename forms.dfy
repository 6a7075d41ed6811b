/** Form state kept as plain objects, and the change handler that writes a
    typed value into it.  A field name may address a nested record with one dot
    (`"employment_info.employer_name"`); only the first two dot-separated parts
    of a name are used. */
module Forms {
  import opened Base
  import opened JsString
  import opened JsValue

  /** What an input reports: `type === "checkbox" ? checked : value`. */
  function InputValue(inputType: string, value: string, checked: bool): (v: Value)
    ensures v.Bool? <==> inputType == "checkbox"
    ensures v.Bool? ==> v.b == checked
    ensures !v.Bool? ==> v == Str(value)
  {
    if inputType == "checkbox" then Bool(checked) else Str(value)
  }

  /** `handleInputChange`: for a name with a dot, `[parent, child] =
      name.split(".")` and `{...prev, [parent]: {...prev[parent], [child]: v}}`;
      for any other name `{...prev, [name]: v}`. */
  function DottedUpdate(prev: Props, name: string, v: Value): Props
  {
    if '.' in name then
      SplitAtSeparator(name, '.');
      var parts := Split(name, '.');
      var parent, child := parts[0], parts[1];
      Put(prev, parent, Obj(Put(Spread(Get(prev, parent)), child, v)))
    else
      Put(prev, name, v)
  }

  /** An undotted name sets exactly that top-level field: it reads back `v`,
      every other field is unchanged, the field order is kept (a new name is
      added last) and names stay unique. */
  lemma FlatUpdate(prev: Props, name: string, v: Value)
    requires '.' !in name
    ensures var r := DottedUpdate(prev, name, v);
      && Get(r, name) == v
      && (forall k :: k != name ==> Get(r, k) == Get(prev, k))
      && Keys(r) == (if name in Keys(prev) then Keys(prev) else Keys(prev) + [name])
      && (Keyed(prev) ==> Keyed(r))
  {
    GetPutSame(prev, name, v);
    forall k | k != name
      ensures Get(Put(prev, name, v), k) == Get(prev, k)
    {
      GetPutOther(prev, name, v, k);
    }
    if Keyed(prev) {
      PutKeyed(prev, name, v);
    }
  }

  /** `"p.c"` (neither part dotted) sets field `c` of the record in field `p`:
      `c` reads back `v`, the record's other fields and every other top-level
      field are unchanged.  A missing or non-object `p` starts from the
      properties object spread gives it (none for `undefined`). */
  lemma NestedUpdate(prev: Props, parent: string, child: string, v: Value)
    requires '.' !in parent && '.' !in child
    ensures var r := DottedUpdate(prev, parent + "." + child, v);
      && Get(r, parent) == Obj(Put(Spread(Get(prev, parent)), child, v))
      && Get(Get(r, parent).props, child) == v
      && (forall c :: c != child ==>
            Get(Get(r, parent).props, c) == Get(Spread(Get(prev, parent)), c))
      && (forall k :: k != parent ==> Get(r, k) == Get(prev, k))
      && (Keyed(prev) ==> Keyed(r))
  {
    var name := parent + "." + child;
    assert name[|parent|] == '.';
    SplitCons(parent, '.', child);
    SplitJoin([child], '.');
    assert Split(name, '.') == [parent, child];
    var inner := Spread(Get(prev, parent));
    var record := Obj(Put(inner, child, v));
    GetPutSame(prev, parent, record);
    GetPutSame(inner, child, v);
    forall c | c != child
      ensures Get(Put(inner, child, v), c) == Get(inner, c)
    {
      GetPutOther(inner, child, v, c);
    }
    forall k | k != parent
      ensures Get(Put(prev, parent, record), k) == Get(prev, k)
    {
      GetPutOther(prev, parent, record, k);
    }
    if Keyed(prev) {
      PutKeyed(prev, parent, record);
    }
  }

  /** Parts after the second are ignored: `"p.c.rest"` updates exactly what
      `"p.c"` updates, whatever `rest` is. */
  lemma ExtraSegmentsDropped(prev: Props, parent: string, child: string, rest: string, v: Value)
    requires '.' !in parent && '.' !in child
    ensures DottedUpdate(prev, parent + "." + child + "." + rest, v) ==
            DottedUpdate(prev, parent + "." + child, v)
  {
    var long := parent + "." + child + "." + rest;
    var short := parent + "." + child;
    assert long == parent + ['.'] + (child + ['.'] + rest);
    assert long[|parent|] == '.' && short[|parent|] == '.';
    SplitCons(parent, '.', child + ['.'] + rest);
    SplitCons(child, '.', rest);
    SplitCons(parent, '.', child);
    SplitJoin([child], '.');
    assert Split(long, '.')[..2] == [parent, child];
    assert Split(short, '.') == [parent, child];
  }

  /** The field named `"metadata.propertyMetadata.title"` replaces the whole
      `metadata.propertyMetadata` record by the typed value; no `title` field
      is written and the rest of the form is untouched. */
  lemma MetadataTitleQuirk(prev: Props, v: Value)
    ensures var r := DottedUpdate(prev, "metadata.propertyMetadata.title", v);
      && Get(r, "metadata").Obj?
      && Get(Get(r, "metadata").props, "propertyMetadata") == v
      && (forall k :: k != "metadata" ==> Get(r, k) == Get(prev, k))
  {
    assert "metadata.propertyMetadata.title" == "metadata" + "." + "propertyMetadata" + "." + "title";
    ExtraSegmentsDropped(prev, "metadata", "propertyMetadata", "title", v);
    NestedUpdate(prev, "metadata", "propertyMetadata", v);
  }
}
