/**
 * The STIX 2 side of the STIX loader: the property kinds it recognises, the
 * node and relation records it extracts from a parsed bundle, and the names
 * it gives relation tables. A stix2 class is known by its name; its declared
 * properties (`_properties`, in declaration order) come from a catalog.
 */
module StixRecords {
  import opened Wrappers
  import opened Seqs
  import opened Text
  import opened Frames

  /**
   * The stix2 property classes, compared by exact class (`type(p) in ...`):
   * a subclass such as `TypeProperty` or `ReferenceProperty` is `OtherProperty`.
   */
  datatype PropKind =
    | BooleanProperty
    | FloatProperty
    | IdProperty
    | IntegerProperty
    | StringProperty
    | TimestampProperty
    | OtherProperty(className: string)

  /** The store column types the loader declares. */
  datatype ColumnType = BOOLEAN | FLOAT | STRING | INT32 | TIMESTAMP

  /** The store half of `STIX_TO_KUZU_AND_PANDAS_PROPERTY_TYPE`; `None` for an unsupported kind. */
  function KuzuType(k: PropKind): (r: Option<ColumnType>)
    ensures r.None? <==> k.OtherProperty?
    ensures r == Some(STRING) <==> k == IdProperty || k == StringProperty
  {
    match k
    case BooleanProperty => Some(BOOLEAN)
    case FloatProperty => Some(FLOAT)
    case IdProperty => Some(STRING)
    case IntegerProperty => Some(INT32)
    case StringProperty => Some(STRING)
    case TimestampProperty => Some(TIMESTAMP)
    case OtherProperty(_) => None
  }

  /** How a column type is spelt in a table definition. */
  function ColumnTypeName(t: ColumnType): string
  {
    match t
    case BOOLEAN => "BOOLEAN"
    case FLOAT => "FLOAT"
    case STRING => "STRING"
    case INT32 => "INT32"
    case TIMESTAMP => "TIMESTAMP"
  }

  /** A class's declared properties, in declaration order. */
  type Schema = seq<(string, PropKind)>

  predicate DistinctNames(schema: Schema)
  {
    forall i, j :: 0 <= i < j < |schema| ==> schema[i].0 != schema[j].0
  }

  /** The declared property names. */
  function Names(schema: Schema): set<string>
  {
    set p | p in schema :: p.0
  }

  /** The declared property names whose kind has a column type. */
  function SupportedNames(schema: Schema): set<string>
  {
    set p | p in schema && KuzuType(p.1).Some? :: p.0
  }

  /** The stix2 classes by name. */
  type Catalog = map<string, Schema>

  const RelationshipClass := "Relationship"

  /**
   * What the loader takes for granted of the stix2 classes: each declares
   * its properties once and has a string `id` of kind ID; `Relationship`
   * declares a string `relationship_type` and no supported property named
   * like one of the four columns the loader adds to relation records.
   */
  predicate ValidCatalog(catalog: Catalog)
  {
    && RelationshipClass in catalog
    && (forall c :: c in catalog ==> DistinctNames(catalog[c]) && ("id", IdProperty) in catalog[c])
    && ("relationship_type", StringProperty) in catalog[RelationshipClass]
    && RelationSchemaOk(catalog[RelationshipClass])
  }

  /** A parsed STIX object: its stix2 class and the properties it sets, in order. */
  datatype StixObject = StixObject(cls: string, props: Dict)

  /** `stix_object.type == "relationship"`. */
  predicate IsRelationship(o: StixObject)
  {
    Get(o.props, "type") == Str("relationship")
  }

  /**
   * What `stix2.parse` guarantees of each object: a known class, only
   * declared properties, a string id, and for a relationship the
   * `Relationship` class with string refs and label.
   */
  ghost predicate Conforms(catalog: Catalog, o: StixObject)
  {
    && o.cls in catalog
    && o.props.Valid()
    && (forall k :: k in o.props.vals ==> k in Names(catalog[o.cls]))
    && Get(o.props, "id").Str?
    && (IsRelationship(o) ==>
          && o.cls == RelationshipClass
          && Get(o.props, "source_ref").Str?
          && Get(o.props, "target_ref").Str?
          && Get(o.props, "relationship_type").Str?)
  }

  ghost predicate Bundle(catalog: Catalog, objs: seq<StixObject>)
  {
    ValidCatalog(catalog) && forall o :: o in objs ==> Conforms(catalog, o)
  }

  /** All objects of a bundle but the last form a bundle, and the last conforms. */
  lemma BundleInit(catalog: Catalog, objs: seq<StixObject>)
    requires Bundle(catalog, objs) && objs != []
    ensures Bundle(catalog, objs[..|objs| - 1]) && Conforms(catalog, objs[|objs| - 1])
  {
    InitIn(objs);
  }

  // ----- node records -----

  /** The record of one non-relationship object: its supported properties, then `type` set to its class. */
  function NodeRecord(catalog: Catalog, o: StixObject): (r: Dict)
    requires ValidCatalog(catalog) && Conforms(catalog, o)
    ensures r.Valid()
  {
    Put(Restrict(o.props, SupportedNames(catalog[o.cls])), "type", Cls(o.cls))
  }

  /**
   * An object's record holds `type`, set to the object's class, and the
   * object's own value for each property it sets whose kind has a column
   * type, and nothing else; so it is a row of the node frame.
   */
  lemma NodeRecordContents(catalog: Catalog, o: StixObject)
    requires ValidCatalog(catalog) && Conforms(catalog, o)
    ensures var r := NodeRecord(catalog, o);
            && (forall k :: k in r.vals <==> k == "type" || (k in o.props.vals && k in SupportedNames(catalog[o.cls])))
            && "type" in r.vals && r.vals["type"] == Cls(o.cls)
            && (forall k :: k in r.vals && k != "type" ==> r.vals[k] == o.props.vals[k])
            && NodeRow(r)
  {
    var keep := SupportedNames(catalog[o.cls]);
    assert "id" in keep by {
      assert ("id", IdProperty) in catalog[o.cls];
    }
    assert "id" in o.props.vals;
  }

  /** The non-relationship objects, in order. */
  function NodeObjects(objs: seq<StixObject>): (r: seq<StixObject>)
    ensures |r| <= |objs|
    ensures forall o :: o in r <==> o in objs && !IsRelationship(o)
  {
    if objs == [] then []
    else
      var last := objs[|objs| - 1];
      var init := objs[..|objs| - 1];
      assert objs == init + [last];
      NodeObjects(init) + (if IsRelationship(last) then [] else [last])
  }

  /** A row of the node frame: a valid dict with a class in `type` and a string `id`. */
  ghost predicate NodeRow(d: Dict)
  {
    d.Valid() && Get(d, "type").Cls? && Get(d, "id").Str?
  }

  /** The list `_stix_objects_to_nodes_df` accumulates. */
  function NodeRecords(catalog: Catalog, objs: seq<StixObject>): (r: seq<Dict>)
    requires Bundle(catalog, objs)
    ensures forall d :: d in r ==> NodeRow(d) && Get(d, "type").name in catalog
  {
    if objs == [] then []
    else
      var last := objs[|objs| - 1];
      var init := objs[..|objs| - 1];
      BundleInit(catalog, objs);
      var prev := NodeRecords(catalog, init);
      NodeRecordContents(catalog, last);
      var extra := if IsRelationship(last) then [] else [NodeRecord(catalog, last)];
      assert forall d :: d in extra ==> NodeRow(d) && Get(d, "type").name in catalog;
      prev + extra
  }

  /** The last object adds its record when it is not a relationship. */
  lemma NodeRecordsStep(catalog: Catalog, objs: seq<StixObject>)
    requires Bundle(catalog, objs) && objs != []
    ensures var init, last := objs[..|objs| - 1], objs[|objs| - 1];
            && Bundle(catalog, init) && Conforms(catalog, last)
            && NodeRecords(catalog, objs)
               == NodeRecords(catalog, init) + (if IsRelationship(last) then [] else [NodeRecord(catalog, last)])
            && NodeObjects(objs) == NodeObjects(init) + (if IsRelationship(last) then [] else [last])
  {
    BundleInit(catalog, objs);
  }

  /** Exactly one record per non-relationship object, in input order. */
  lemma NodeRecordsPerObject(catalog: Catalog, objs: seq<StixObject>)
    requires Bundle(catalog, objs)
    ensures var recs, nodes := NodeRecords(catalog, objs), NodeObjects(objs);
            && |recs| == |nodes|
            && forall i :: 0 <= i < |nodes| ==> recs[i] == NodeRecord(catalog, nodes[i])
  {
    var p := RecordOf(catalog);
    NodeRecordsPointwise(catalog, objs);
    var recs, nodes := NodeRecords(catalog, objs), NodeObjects(objs);
    assert Pointwise(nodes, recs, p);
    forall i | 0 <= i < |nodes| ensures recs[i] == NodeRecord(catalog, nodes[i]) {
      assert p(nodes[i], recs[i]);
    }
  }

  /** Relates an object to its node record. */
  ghost function RecordOf(catalog: Catalog): (StixObject, Dict) -> bool
  {
    (o: StixObject, r: Dict) => ValidCatalog(catalog) && Conforms(catalog, o) && r == NodeRecord(catalog, o)
  }

  /** `NodeRecordsPerObject`, with the correspondence kept behind `Pointwise`. */
  lemma {:induction false} NodeRecordsPointwise(catalog: Catalog, objs: seq<StixObject>)
    requires Bundle(catalog, objs)
    ensures Pointwise(NodeObjects(objs), NodeRecords(catalog, objs), RecordOf(catalog))
  {
    if objs != [] {
      var init, last := objs[..|objs| - 1], objs[|objs| - 1];
      var p := RecordOf(catalog);
      NodeRecordsStep(catalog, objs);
      NodeRecordsPointwise(catalog, init);
      if IsRelationship(last) {
        assert NodeObjects(objs) == NodeObjects(init) + [];
        assert NodeRecords(catalog, objs) == NodeRecords(catalog, init) + [];
      } else {
        RecordOfSnoc(catalog, NodeObjects(init), NodeRecords(catalog, init), last);
      }
    }
  }

  /** Appending an object and its record keeps the correspondence. */
  lemma RecordOfSnoc(catalog: Catalog, nodes: seq<StixObject>, recs: seq<Dict>, last: StixObject)
    requires ValidCatalog(catalog) && Conforms(catalog, last)
    requires Pointwise(nodes, recs, RecordOf(catalog))
    ensures Pointwise(nodes + [last], recs + [NodeRecord(catalog, last)], RecordOf(catalog))
  {
    var p := RecordOf(catalog);
    var rec := NodeRecord(catalog, last);
    assert p(last, rec);
    assert Pointwise([last], [rec], p);
    PointwiseConcat(nodes, recs, [last], [rec], p);
  }

  /** `_stix_objects_to_nodes_df`: the loop appending one record per non-relationship object. */
  method ObjectsToNodes(catalog: Catalog, objs: seq<StixObject>) returns (nodes: Frame)
    requires Bundle(catalog, objs)
    ensures nodes == FromRecords(NodeRecords(catalog, objs))
  {
    var nodesList: seq<Dict> := [];
    for i := 0 to |objs|
      invariant nodesList == NodeRecords(catalog, objs[..i])
    {
      TakeSnoc(objs, i);
      assert objs[i] in objs;
      if !IsRelationship(objs[i]) {
        nodesList := nodesList + [NodeRecord(catalog, objs[i])];
      }
    }
    TakeAll(objs);
    nodes := FromRecords(nodesList);
  }

  // ----- looking nodes up by id -----

  /** `(nodes.id == ref).any()`. */
  predicate Retained(rows: seq<Dict>, ref: Value)
  {
    exists d :: d in rows && Get(d, "id") == ref
  }

  /** `nodes[nodes.id == ref].iloc[0].type`, or `None` where `iloc[0]` raises. */
  function NodeType(rows: seq<Dict>, ref: Value): (r: Option<Value>)
    ensures r.Some? <==> Retained(rows, ref)
    ensures r.Some? ==> exists d :: d in rows && Get(d, "id") == ref && Get(d, "type") == r.value
    ensures r.Some? && (forall d :: d in rows ==> NodeRow(d)) ==> r.value.Cls?
  {
    var hits := Where(rows, "id", ref);
    if |hits| == 0 then None
    else
      assert hits[0] in hits;
      Some(Get(hits[0], "type"))
  }

  // ----- relation records -----

  /** The supported names of a schema are those of all but its last property, plus the last when supported. */
  lemma SupportedNamesSnoc(schema: Schema)
    requires schema != []
    ensures var init, last := schema[..|schema| - 1], schema[|schema| - 1];
            forall k :: k in SupportedNames(schema) <==>
              k in SupportedNames(init) || (k == last.0 && KuzuType(last.1).Some?)
  {
    var init, last := schema[..|schema| - 1], schema[|schema| - 1];
    assert schema == init + [last];
    forall k | k in SupportedNames(schema)
      ensures k in SupportedNames(init) || (k == last.0 && KuzuType(last.1).Some?)
    {
      var p :| p in schema && KuzuType(p.1).Some? && p.0 == k;
      if p != last {
        assert p in init;
      }
    }
    forall k | k in SupportedNames(init) ensures k in SupportedNames(schema) {
      var p :| p in init && KuzuType(p.1).Some? && p.0 == k;
      assert p in schema;
    }
    if KuzuType(last.1).Some? {
      assert last in schema;
    }
  }

  /** `node_dict.update({...})`: every supported declared property, its value or `None` when unset. */
  function PutProperties(d: Dict, schema: Schema, o: StixObject): (r: Dict)
    requires d.Valid()
    ensures r.Valid()
  {
    if schema == [] then d
    else
      var last := schema[|schema| - 1];
      var d' := PutProperties(d, schema[..|schema| - 1], o);
      if KuzuType(last.1).Some? then Put(d', last.0, Get(o.props, last.0)) else d'
  }

  /**
   * The update adds exactly the supported declared properties, each with
   * the object's value or `None`, and leaves every other key as it was.
   */
  lemma {:induction false} PutPropertiesContents(d: Dict, schema: Schema, o: StixObject)
    requires d.Valid()
    ensures var r := PutProperties(d, schema, o);
            && (forall k :: k in r.vals <==> k in d.vals || k in SupportedNames(schema))
            && (forall k :: k in SupportedNames(schema) ==> k in r.vals && r.vals[k] == Get(o.props, k))
            && (forall k :: k in d.vals && k !in SupportedNames(schema) ==> r.vals[k] == d.vals[k])
  {
    if schema != [] {
      var last := schema[|schema| - 1];
      var init := schema[..|schema| - 1];
      SupportedNamesSnoc(schema);
      PutPropertiesContents(d, init, o);
    }
  }

  /** The four columns the loader puts first in a relation record. */
  predicate EndpointColumn(k: string)
  {
    k == "f" || k == "t" || k == "source_type" || k == "target_type"
  }

  /** The Relationship class declares none of the endpoint columns. */
  predicate RelationSchemaOk(relSchema: Schema)
  {
    "f" !in SupportedNames(relSchema) && "t" !in SupportedNames(relSchema)
    && "source_type" !in SupportedNames(relSchema) && "target_type" !in SupportedNames(relSchema)
  }

  /** The four leading columns of a relation record. */
  function Endpoints(o: StixObject, srcType: Value, tgtType: Value): (r: Dict)
    ensures r.Valid()
    ensures forall k :: k in r.vals <==> EndpointColumn(k)
    ensures "f" in r.vals && r.vals["f"] == Get(o.props, "source_ref")
    ensures "t" in r.vals && r.vals["t"] == Get(o.props, "target_ref")
    ensures "source_type" in r.vals && r.vals["source_type"] == srcType
    ensures "target_type" in r.vals && r.vals["target_type"] == tgtType
  {
    Dict(["f", "t", "source_type", "target_type"],
         map["f" := Get(o.props, "source_ref"), "t" := Get(o.props, "target_ref"),
             "source_type" := srcType, "target_type" := tgtType])
  }

  /** The record of one relationship whose endpoints have the given types. */
  function RelationRecord(relSchema: Schema, o: StixObject, srcType: Value, tgtType: Value): (r: Dict)
    requires RelationSchemaOk(relSchema)
    ensures r.Valid()
  {
    PutProperties(Endpoints(o, srcType, tgtType), relSchema, o)
  }

  /**
   * A relation record holds the four endpoint columns, `f`/`t` the refs and
   * `source_type`/`target_type` the given types, then every supported
   * Relationship property with the object's value or `None`.
   */
  lemma RelationRecordContents(relSchema: Schema, o: StixObject, srcType: Value, tgtType: Value)
    requires RelationSchemaOk(relSchema)
    ensures var r := RelationRecord(relSchema, o, srcType, tgtType);
            && (forall k :: k in r.vals <==> EndpointColumn(k) || k in SupportedNames(relSchema))
            && "f" in r.vals && r.vals["f"] == Get(o.props, "source_ref")
            && "t" in r.vals && r.vals["t"] == Get(o.props, "target_ref")
            && "source_type" in r.vals && r.vals["source_type"] == srcType
            && "target_type" in r.vals && r.vals["target_type"] == tgtType
            && (forall k :: k in SupportedNames(relSchema) ==> r.vals[k] == Get(o.props, k))
  {
    var e := Endpoints(o, srcType, tgtType);
    assert EndpointColumn("f") && EndpointColumn("t") && EndpointColumn("source_type") && EndpointColumn("target_type");
    PutPropertiesContents(e, relSchema, o);
  }

  /** A relationship whose two endpoints are both among the node rows. */
  predicate BothRetained(rows: seq<Dict>, o: StixObject)
  {
    IsRelationship(o) && Retained(rows, Get(o.props, "source_ref")) && Retained(rows, Get(o.props, "target_ref"))
  }

  /** The relationships that yield a relation record, in order. */
  function KeptRelationships(objs: seq<StixObject>, rows: seq<Dict>): (r: seq<StixObject>)
    ensures forall o :: o in r <==> o in objs && BothRetained(rows, o)
  {
    if objs == [] then []
    else
      var last := objs[|objs| - 1];
      var init := objs[..|objs| - 1];
      assert objs == init + [last];
      KeptRelationships(init, rows) + (if BothRetained(rows, last) then [last] else [])
  }

  /** The record of a relationship both of whose endpoints are retained. */
  function KeptRecord(relSchema: Schema, rows: seq<Dict>, o: StixObject): Dict
    requires RelationSchemaOk(relSchema) && BothRetained(rows, o)
  {
    RelationRecord(relSchema, o, NodeType(rows, Get(o.props, "source_ref")).value,
                   NodeType(rows, Get(o.props, "target_ref")).value)
  }

  /** The list `_stix_objects_to_relations_df` accumulates. */
  function RelationRecords(relSchema: Schema, objs: seq<StixObject>, rows: seq<Dict>): (r: seq<Dict>)
    requires RelationSchemaOk(relSchema)
    ensures forall d :: d in r ==> d.Valid()
  {
    if objs == [] then []
    else
      var last := objs[|objs| - 1];
      var init := objs[..|objs| - 1];
      var r := RelationRecords(relSchema, init, rows)
               + (if BothRetained(rows, last) then [KeptRecord(relSchema, rows, last)] else []);
      assert forall d :: d in r ==> d in RelationRecords(relSchema, init, rows) || d.Valid();
      r
  }

  /**
   * A relationship yields a record exactly when both endpoints are retained,
   * one per such relationship and in input order, with `f`/`t` its refs and
   * `source_type`/`target_type` the types of the nodes those refs name.
   */
  lemma {:induction false} RelationRecordsPerRelationship(relSchema: Schema, objs: seq<StixObject>, rows: seq<Dict>)
    requires RelationSchemaOk(relSchema)
    ensures KeptPairs(relSchema, rows, RelationRecords(relSchema, objs, rows), KeptRelationships(objs, rows))
  {
    if objs != [] {
      var init, last := objs[..|objs| - 1], objs[|objs| - 1];
      RelationRecordsPerRelationship(relSchema, init, rows);
      var recs, kept := RelationRecords(relSchema, objs, rows), KeptRelationships(objs, rows);
      var recs0, kept0 := RelationRecords(relSchema, init, rows), KeptRelationships(init, rows);
      assert objs == init + [last];
      if BothRetained(rows, last) {
        assert recs == recs0 + [KeptRecord(relSchema, rows, last)];
        assert kept == kept0 + [last];
        KeptPairsConcat(relSchema, rows, recs0, kept0, [KeptRecord(relSchema, rows, last)], [last]);
      } else {
        assert recs == recs0 && kept == kept0;
      }
    }
  }

  /** Each record is the record of the relationship at the same position. */
  ghost predicate KeptPairs(relSchema: Schema, rows: seq<Dict>, recs: seq<Dict>, kept: seq<StixObject>)
    requires RelationSchemaOk(relSchema)
  {
    && |recs| == |kept|
    && forall i :: 0 <= i < |kept| ==> BothRetained(rows, kept[i]) && recs[i] == KeptRecord(relSchema, rows, kept[i])
  }

  lemma KeptPairsConcat(relSchema: Schema, rows: seq<Dict>, recs0: seq<Dict>, kept0: seq<StixObject>,
                        recs1: seq<Dict>, kept1: seq<StixObject>)
    requires RelationSchemaOk(relSchema)
    requires KeptPairs(relSchema, rows, recs0, kept0) && KeptPairs(relSchema, rows, recs1, kept1)
    ensures KeptPairs(relSchema, rows, recs0 + recs1, kept0 + kept1)
  {
    var p := (o: StixObject, r: Dict) => BothRetained(rows, o) && r == KeptRecord(relSchema, rows, o);
    assert Pointwise(kept0, recs0, p);
    assert Pointwise(kept1, recs1, p);
    PointwiseConcat(kept0, recs0, kept1, recs1, p);
    assert Pointwise(kept0 + kept1, recs0 + recs1, p);
  }

  /** What a kept relationship's record holds. */
  lemma KeptRecordContents(relSchema: Schema, rows: seq<Dict>, o: StixObject)
    requires RelationSchemaOk(relSchema) && BothRetained(rows, o)
    ensures var r := KeptRecord(relSchema, rows, o);
            && "f" in r.vals && r.vals["f"] == Get(o.props, "source_ref")
            && "t" in r.vals && r.vals["t"] == Get(o.props, "target_ref")
            && "source_type" in r.vals && "target_type" in r.vals
            && (exists d :: d in rows && Get(d, "id") == Get(o.props, "source_ref") && Get(d, "type") == r.vals["source_type"])
            && (exists d :: d in rows && Get(d, "id") == Get(o.props, "target_ref") && Get(d, "type") == r.vals["target_type"])
            && (forall k :: k in SupportedNames(relSchema) ==> k in r.vals && r.vals[k] == Get(o.props, k))
  {
    RelationRecordContents(relSchema, o, NodeType(rows, Get(o.props, "source_ref")).value,
                           NodeType(rows, Get(o.props, "target_ref")).value);
  }

  /** `_stix_objects_to_relations_df`: the loop appending one record per relationship with both endpoints retained. */
  method ObjectsToRelations(relSchema: Schema, objs: seq<StixObject>, nodes: Frame) returns (relations: Frame)
    requires RelationSchemaOk(relSchema)
    ensures relations == FromRecords(RelationRecords(relSchema, objs, nodes.rows))
  {
    var nodesList: seq<Dict> := [];
    for i := 0 to |objs|
      invariant nodesList == RelationRecords(relSchema, objs[..i], nodes.rows)
    {
      TakeSnoc(objs, i);
      var o := objs[i];
      if IsRelationship(o) && Retained(nodes.rows, Get(o.props, "source_ref"))
         && Retained(nodes.rows, Get(o.props, "target_ref")) {
        var srcType := NodeType(nodes.rows, Get(o.props, "source_ref")).value;
        var tgtType := NodeType(nodes.rows, Get(o.props, "target_ref")).value;
        nodesList := nodesList + [RelationRecord(relSchema, o, srcType, tgtType)];
      }
    }
    TakeAll(objs);
    relations := FromRecords(nodesList);
  }

  // ----- relation table names -----

  /** `stix_to_kuzu_relation_type`: every `-` becomes `_`, nothing else changes. */
  function RelationType(lab: string): (r: string)
    ensures |r| == |lab|
    ensures forall i :: 0 <= i < |lab| ==> r[i] == (if lab[i] == '-' then '_' else lab[i])
    ensures '-' !in r
  {
    ReplaceChar(lab, '-', '_')
  }

  /** `_get_relation_name`: source class, normalised label and target class, joined by `_`. */
  function RelationName(lab: string, source: string, target: string): (r: string)
    ensures |r| == |source| + |lab| + |target| + 2
    ensures r[..|source|] == source && r[|source|] == '_'
    ensures r[|r| - |target|..] == target && r[|r| - |target| - 1] == '_'
  {
    source + "_" + RelationType(lab) + "_" + target
  }

  /** A string without `_`: where `RelationName` can cut unambiguously. */
  predicate NoUnderscore(s: string)
  {
    '_' !in s
  }

  /** On labels without `_`, the lab normalisation loses nothing. */
  lemma RelationTypeInjective(a: string, b: string)
    requires NoUnderscore(a) && NoUnderscore(b)
    requires RelationType(a) == RelationType(b)
    ensures a == b
  {
    assert |a| == |b|;
    forall i | 0 <= i < |a| ensures a[i] == b[i] {
      assert RelationType(a)[i] == RelationType(b)[i];
      assert a[i] != '_' && b[i] != '_' by { assert a[i] in a; assert b[i] in b; }
    }
  }

  /** The first `_` of a name whose source part has none is right after the source. */
  lemma FirstUnderscore(s1: string, s2: string, rest1: string, rest2: string)
    requires NoUnderscore(s1) && NoUnderscore(s2)
    requires s1 + "_" + rest1 == s2 + "_" + rest2
    ensures s1 == s2 && rest1 == rest2
  {
    var x := s1 + "_" + rest1;
    assert x == s2 + "_" + rest2;
    assert x[|s1|] == '_' && x[|s2|] == '_';
    assert forall i :: 0 <= i < |s1| ==> x[i] == s1[i] && s1[i] in s1;
    assert forall i :: 0 <= i < |s2| ==> x[i] == s2[i] && s2[i] in s2;
    assert |s1| == |s2|;
    assert s1 == x[..|s1|] == s2;
    assert rest1 == x[|s1| + 1..] == rest2;
  }

  /** The last `_` of a name whose target part has none is right before the target. */
  lemma LastUnderscore(m1: string, m2: string, t1: string, t2: string)
    requires NoUnderscore(t1) && NoUnderscore(t2)
    requires m1 + "_" + t1 == m2 + "_" + t2
    ensures m1 == m2 && t1 == t2
  {
    var x := m1 + "_" + t1;
    assert x == m2 + "_" + t2;
    assert x[|m1|] == '_' && x[|m2|] == '_';
    assert forall i :: |m1| < i < |x| ==> x[i] == t1[i - |m1| - 1] && t1[i - |m1| - 1] in t1;
    assert forall i :: |m2| < i < |x| ==> x[i] == t2[i - |m2| - 1] && t2[i - |m2| - 1] in t2;
    assert |m1| == |m2|;
    assert m1 == x[..|m1|] == m2;
    assert t1 == x[|m1| + 1..] == t2;
  }

  /**
   * Distinct (label, source class, target class) keys get distinct table
   * names when no part contains `_`; STIX labels use `-` and the class names
   * are CamelCase.
   */
  lemma {:induction false} RelationNameInjective(l1: string, s1: string, t1: string, l2: string, s2: string, t2: string)
    requires NoUnderscore(l1) && NoUnderscore(s1) && NoUnderscore(t1)
    requires NoUnderscore(l2) && NoUnderscore(s2) && NoUnderscore(t2)
    requires RelationName(l1, s1, t1) == RelationName(l2, s2, t2)
    ensures l1 == l2 && s1 == s2 && t1 == t2
  {
    var m1, m2 := RelationType(l1), RelationType(l2);
    assert s1 + "_" + m1 + "_" + t1 == s1 + "_" + (m1 + "_" + t1);
    assert s2 + "_" + m2 + "_" + t2 == s2 + "_" + (m2 + "_" + t2);
    FirstUnderscore(s1, s2, m1 + "_" + t1, m2 + "_" + t2);
    LastUnderscore(m1, m2, t1, t2);
    RelationTypeInjective(l1, l2);
  }

  /** Without that restriction names can collide: `a-b` and `a_b` share a table. */
  lemma RelationNameCollision()
    ensures RelationName("a-b", "X", "Y") == RelationName("a_b", "X", "Y")
  {
    assert RelationType("a-b") == "a_b";
    assert RelationType("a_b") == "a_b";
  }
}
