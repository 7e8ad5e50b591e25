/**
 * `instanciate_dataset_in_kuzu` for a STIX 2 bundle: node tables declared
 * from each retained class's schema, one load per class, one relation table
 * per (label, source class, target class) and one copy per such key, all
 * recorded on the connection's statement log.
 */
module StixLoader {
  import opened Wrappers
  import opened Seqs
  import opened Text
  import opened Frames
  import opened Store
  import opened Models
  import opened StixRecords
  import Sampling

  // ----- table schemas -----

  /** `type_to_properties[t]` and `relation_properties`: the supported declared properties with their column types. */
  function TableColumns(schema: Schema): (r: seq<(string, ColumnType)>)
    ensures |r| <= |schema|
    ensures forall p :: p in r <==> exists q :: q in schema && q.0 == p.0 && KuzuType(q.1) == Some(p.1)
  {
    if schema == [] then []
    else
      var last := schema[|schema| - 1];
      var init := schema[..|schema| - 1];
      assert schema == init + [last];
      TableColumns(init) + (match KuzuType(last.1) case Some(t) => [(last.0, t)] case None => [])
  }

  /** The column names of `TableColumns` are the supported declared names. */
  lemma TableColumnNames(schema: Schema)
    ensures forall n :: n in SupportedNames(schema) <==> exists t :: (n, t) in TableColumns(schema)
  {
    forall n | n in SupportedNames(schema) ensures exists t :: (n, t) in TableColumns(schema) {
      var q :| q in schema && KuzuType(q.1).Some? && q.0 == n;
      assert (n, KuzuType(q.1).value) in TableColumns(schema);
    }
  }

  /** `", ".join(name + " " + type for ...)`. */
  function ColumnDefs(cols: seq<(string, ColumnType)>): string
  {
    Join(", ", seq(|cols|, i requires 0 <= i < |cols| => cols[i].0 + " " + ColumnTypeName(cols[i].1)))
  }

  /** One class's node table: its schema's supported columns, keyed on `id`. */
  function NodeTableDef(catalog: Catalog, cls: string): string
    requires cls in catalog
  {
    "CREATE NODE TABLE " + cls + "(" + ColumnDefs(TableColumns(catalog[cls])) + ", PRIMARY KEY (id));\n"
  }

  const PrimaryKeyClause := ", PRIMARY KEY (id));\n"

  /**
   * A node table definition depends on the class's declared schema only,
   * never on the data, and ends with the primary-key clause.
   */
  lemma NodeTableDefShape(catalog: Catalog, other: Catalog, cls: string)
    requires cls in catalog && cls in other && catalog[cls] == other[cls]
    ensures NodeTableDef(catalog, cls) == NodeTableDef(other, cls)
    ensures var t := NodeTableDef(catalog, cls);
            |t| >= |PrimaryKeyClause| && t[|t| - |PrimaryKeyClause|..] == PrimaryKeyClause
  {
    var t := NodeTableDef(catalog, cls);
    var head := "CREATE NODE TABLE " + cls + "(" + ColumnDefs(TableColumns(catalog[cls]));
    assert t == head + PrimaryKeyClause;
  }

  /** The classes present in the `type` column, each once, in order of first appearance (`unique()`). */
  predicate HasType(rows: seq<Dict>, c: string)
  {
    exists d :: d in rows && Get(d, "type") == Cls(c)
  }

  function NodeTypes(rows: seq<Dict>): (r: seq<string>)
    ensures forall i, j :: 0 <= i < j < |r| ==> r[i] != r[j]
    ensures forall c :: c in r <==> HasType(rows, c)
  {
    if rows == [] then []
    else
      var last := rows[|rows| - 1];
      var init := rows[..|rows| - 1];
      assert rows == init + [last];
      var types := NodeTypes(init);
      var t := Get(last, "type");
      if t.Cls? && t.name !in types then types + [t.name] else types
  }

  /** Every class in the rows' `type` column is a catalog class. */
  ghost predicate CatalogRows(catalog: Catalog, rows: seq<Dict>)
  {
    forall d :: d in rows ==> NodeRow(d) && Get(d, "type").name in catalog
  }

  /** The single node-table statement: the definitions of the retained classes, concatenated. */
  function NodeTablesText(catalog: Catalog, types: seq<string>): string
    requires forall c :: c in types ==> c in catalog
  {
    Concat(seq(|types|, i requires 0 <= i < |types| => NodeTableDef(catalog, types[i])))
  }

  /** The `statement +=` loop over `type_to_properties`. */
  method BuildNodeTables(catalog: Catalog, types: seq<string>) returns (statement: string)
    requires forall c :: c in types ==> c in catalog
    ensures statement == NodeTablesText(catalog, types)
  {
    ghost var defs := seq(|types|, i requires 0 <= i < |types| => NodeTableDef(catalog, types[i]));
    statement := "";
    for i := 0 to |types|
      invariant statement == Concat(defs[..i])
    {
      TakeSnoc(defs, i);
      statement := statement + NodeTableDef(catalog, types[i]);
    }
    TakeAll(defs);
  }

  // ----- node loads -----

  /** `typenodes`: the class's rows, without `type` and without the columns missing in all of them. */
  function TypeNodes(nodes: Frame, cls: string): Frame
    requires forall d :: d in nodes.rows ==> d.Valid()
  {
    DropAllNull(ClassRows(nodes, cls))
  }

  /** Some row of class `cls` holds a value in column `c`. */
  predicate ClassHasValue(rows: seq<Dict>, cls: string, c: string)
  {
    exists d :: d in rows && Get(d, "type") == Cls(cls) && Get(d, c) != Null
  }

  /** The class's rows, without `type`. */
  function ClassRows(nodes: Frame, cls: string): (r: Frame)
    requires forall d :: d in nodes.rows ==> d.Valid()
    ensures forall d :: d in r.rows ==> d.Valid()
  {
    DropColumn(Frame(nodes.columns, Where(nodes.rows, "type", Cls(cls))), "type")
  }

  /** A value in a column other than `type` among the class's rows comes from a row of the class. */
  lemma ClassRowsValueFromClass(nodes: Frame, cls: string, c: string)
    requires forall d :: d in nodes.rows ==> d.Valid()
    requires c in nodes.columns && c != "type"
    requires HasValue(ClassRows(nodes, cls).rows, c)
    ensures ClassHasValue(nodes.rows, cls, c)
  {
    var selected := Where(nodes.rows, "type", Cls(cls));
    var dropped := ClassRows(nodes, cls);
    var n :| 0 <= n < |dropped.rows| && Get(dropped.rows[n], c) != Null;
    DropColumnCell(Frame(nodes.columns, selected), "type", n, c);
    assert selected[n] in selected;
  }

  /** A value a row of the class holds in a column other than `type` survives the drop. */
  lemma ClassValueInClassRows(nodes: Frame, cls: string, c: string)
    requires forall d :: d in nodes.rows ==> d.Valid()
    requires c in nodes.columns && c != "type"
    requires ClassHasValue(nodes.rows, cls, c)
    ensures HasValue(ClassRows(nodes, cls).rows, c)
  {
    var selected := Where(nodes.rows, "type", Cls(cls));
    var d :| d in nodes.rows && Get(d, "type") == Cls(cls) && Get(d, c) != Null;
    assert d in selected;
    var n :| 0 <= n < |selected| && selected[n] == d;
    DropColumnCell(Frame(nodes.columns, selected), "type", n, c);
  }

  /**
   * The columns a class's load mentions: the frame's columns other than
   * `type` that some row of the class fills.
   */
  lemma TypeNodesColumns(nodes: Frame, cls: string)
    requires forall d :: d in nodes.rows ==> d.Valid()
    ensures forall c :: c in TypeNodes(nodes, cls).columns <==>
              c in nodes.columns && c != "type" && ClassHasValue(nodes.rows, cls, c)
  {
    var dropped := ClassRows(nodes, cls);
    assert TypeNodes(nodes, cls) == DropAllNull(dropped);
    forall c | c in nodes.columns && c != "type"
      ensures HasValue(dropped.rows, c) <==> ClassHasValue(nodes.rows, cls, c)
    {
      if HasValue(dropped.rows, c) {
        ClassRowsValueFromClass(nodes, cls, c);
      }
      if ClassHasValue(nodes.rows, cls, c) {
        ClassValueInClassRows(nodes, cls, c);
      }
    }
  }

  /** `"LOAD FROM typenodes CREATE (n:" + cls + " {c: c, ...});"`. */
  function LoadText(cls: string, typeNodes: Frame): string
  {
    var cols := typeNodes.columns;
    "LOAD FROM typenodes CREATE (n:" + cls + " {"
      + Join(", ", seq(|cols|, i requires 0 <= i < |cols| => cols[i] + ": " + cols[i])) + "});"
  }

  function LoadStatement(nodes: Frame, cls: string): Statement
    requires forall d :: d in nodes.rows ==> d.Valid()
  {
    var typeNodes := TypeNodes(nodes, cls);
    Statement(LoadText(cls, typeNodes), Bound("typenodes", typeNodes))
  }

  function LoadStatements(nodes: Frame, types: seq<string>): (r: seq<Statement>)
    requires forall d :: d in nodes.rows ==> d.Valid()
    ensures |r| == |types|
  {
    seq(|types|, i requires 0 <= i < |types| => LoadStatement(nodes, types[i]))
  }

  /** The loop over `type_to_properties.keys()` loading each class's nodes. */
  method LoadNodeTables(conn: Connection, nodes: Frame, types: seq<string>)
    requires forall d :: d in nodes.rows ==> d.Valid()
    modifies conn
    ensures conn.log == old(conn.log) + LoadStatements(nodes, types)
  {
    ghost var loads := LoadStatements(nodes, types);
    for i := 0 to |types|
      invariant conn.log == old(conn.log) + loads[..i]
    {
      var typeNodes := TypeNodes(nodes, types[i]);
      assert loads[i] == Statement(LoadText(types[i], typeNodes), Bound("typenodes", typeNodes));
      conn.Execute(LoadText(types[i], typeNodes), Bound("typenodes", typeNodes));
      TakeSnoc(loads, i);
      AppendAssoc(old(conn.log), loads[..i], [loads[i]]);
    }
    TakeAll(loads);
  }

  // ----- relation tables -----

  /** A relation table key: the label and the classes of the two endpoints. */
  datatype RelKey = RelKey(lab: string, source: string, target: string)

  /** `o` is a relationship with both endpoints retained whose label and endpoint classes are `k`'s. */
  predicate HasKey(rows: seq<Dict>, o: StixObject, k: RelKey)
  {
    && BothRetained(rows, o)
    && Get(o.props, "relationship_type") == Str(k.lab)
    && NodeType(rows, Get(o.props, "source_ref")) == Some(Cls(k.source))
    && NodeType(rows, Get(o.props, "target_ref")) == Some(Cls(k.target))
  }

  /** The key of a relationship both of whose endpoints are retained: the only key it has. */
  function KeyOf(rows: seq<Dict>, o: StixObject): (k: RelKey)
    requires forall d :: d in rows ==> NodeRow(d)
    requires BothRetained(rows, o) && Get(o.props, "relationship_type").Str?
    ensures forall k' :: HasKey(rows, o, k') <==> k' == k
  {
    RelKey(Get(o.props, "relationship_type").s,
           NodeType(rows, Get(o.props, "source_ref")).value.name,
           NodeType(rows, Get(o.props, "target_ref")).value.name)
  }

  /** Every relationship has both endpoints among the rows. */
  predicate AllRetained(objs: seq<StixObject>, rows: seq<Dict>)
  {
    forall o :: o in objs && IsRelationship(o) ==> BothRetained(rows, o)
  }

  /** Some relationship of `objs` has key `k`. */
  predicate KeyUsed(objs: seq<StixObject>, rows: seq<Dict>, k: RelKey)
  {
    exists o :: o in objs && HasKey(rows, o, k)
  }

  /** A key is used by `init + [last]` when it is used by `init` or is the key of `last`. */
  lemma KeyUsedSnoc(init: seq<StixObject>, last: StixObject, rows: seq<Dict>, k: RelKey)
    ensures KeyUsed(init + [last], rows, k) <==> KeyUsed(init, rows, k) || HasKey(rows, last, k)
  {
    var objs := init + [last];
    assert last in objs;
    assert forall o :: o in init ==> o in objs;
    if KeyUsed(objs, rows, k) {
      var o :| o in objs && HasKey(rows, o, k);
      if o != last {
        assert o in init;
      }
    }
  }

  /**
   * `all_relation_types`: the distinct keys of all relationships in the
   * bundle, or the `IndexError` of `.iloc[0]` on an endpoint that sampling
   * dropped. Keys come in order of first appearance.
   */
  function RelationTypes(objs: seq<StixObject>, rows: seq<Dict>): (r: Result<seq<RelKey>, IngestError>)
    requires forall d :: d in rows ==> NodeRow(d)
    requires forall o :: o in objs && IsRelationship(o) ==> Get(o.props, "relationship_type").Str?
    ensures r.Failure? ==> r.error == EndpointNotRetained
  {
    if objs == [] then Success([])
    else
      var last := objs[|objs| - 1];
      var init := objs[..|objs| - 1];
      assert last in objs;
      assert forall o :: o in init ==> o in objs;
      match RelationTypes(init, rows)
      case Failure(e) => Failure(e)
      case Success(keys) =>
        if !IsRelationship(last) then Success(keys)
        else if !BothRetained(rows, last) then Failure(EndpointNotRetained)
        else
          var k := KeyOf(rows, last);
          Success(if k in keys then keys else keys + [k])
  }

  /** The key list exists exactly when every relationship's endpoints are retained. */
  lemma {:induction false} RelationTypesSucceeds(objs: seq<StixObject>, rows: seq<Dict>)
    requires forall d :: d in rows ==> NodeRow(d)
    requires forall o :: o in objs && IsRelationship(o) ==> Get(o.props, "relationship_type").Str?
    ensures RelationTypes(objs, rows).Success? <==> AllRetained(objs, rows)
  {
    if objs != [] {
      var last := objs[|objs| - 1];
      var init := objs[..|objs| - 1];
      assert forall o :: o in objs <==> o in init || o == last by {
        assert objs == init + [last];
      }
      RelationTypesSucceeds(init, rows);
    }
  }

  /** One step of `RelationTypes`: the last object adds its key when it is new. */
  lemma RelationTypesStep(objs: seq<StixObject>, rows: seq<Dict>)
    requires forall d :: d in rows ==> NodeRow(d)
    requires forall o :: o in objs && IsRelationship(o) ==> Get(o.props, "relationship_type").Str?
    requires objs != [] && RelationTypes(objs, rows).Success?
    ensures var init, last := objs[..|objs| - 1], objs[|objs| - 1];
            && (forall o :: o in init && IsRelationship(o) ==> Get(o.props, "relationship_type").Str?)
            && RelationTypes(init, rows).Success?
            && var ks, r := RelationTypes(init, rows).value, RelationTypes(objs, rows).value;
               if IsRelationship(last) then
                 && BothRetained(rows, last) && Get(last.props, "relationship_type").Str?
                 && r == (if KeyOf(rows, last) in ks then ks else ks + [KeyOf(rows, last)])
               else r == ks
  {
    var init, last := objs[..|objs| - 1], objs[|objs| - 1];
    assert last in objs;
    assert forall o :: o in init ==> o in objs;
  }

  /** One step of `RelationTypes`, key by key: the last object contributes exactly its own key. */
  lemma RelationTypesStepKey(objs: seq<StixObject>, rows: seq<Dict>, k: RelKey)
    requires forall d :: d in rows ==> NodeRow(d)
    requires forall o :: o in objs && IsRelationship(o) ==> Get(o.props, "relationship_type").Str?
    requires objs != [] && RelationTypes(objs, rows).Success?
    ensures var init, last := objs[..|objs| - 1], objs[|objs| - 1];
            && (forall o :: o in init && IsRelationship(o) ==> Get(o.props, "relationship_type").Str?)
            && RelationTypes(init, rows).Success?
            && (k in RelationTypes(objs, rows).value <==> k in RelationTypes(init, rows).value || HasKey(rows, last, k))
  {
    RelationTypesStep(objs, rows);
    var last := objs[|objs| - 1];
    if !IsRelationship(last) {
      assert !BothRetained(rows, last);
    }
  }

  /** When it exists, the key list holds each key once. */
  lemma {:induction false} RelationTypesDistinct(objs: seq<StixObject>, rows: seq<Dict>)
    requires forall d :: d in rows ==> NodeRow(d)
    requires forall o :: o in objs && IsRelationship(o) ==> Get(o.props, "relationship_type").Str?
    requires RelationTypes(objs, rows).Success?
    ensures var keys := RelationTypes(objs, rows).value;
            forall i, j :: 0 <= i < j < |keys| ==> keys[i] != keys[j]
  {
    if objs != [] {
      var init := objs[..|objs| - 1];
      RelationTypesStep(objs, rows);
      RelationTypesDistinct(init, rows);
      var ks, r := RelationTypes(init, rows).value, RelationTypes(objs, rows).value;
      var last := objs[|objs| - 1];
      if IsRelationship(last) && KeyOf(rows, last) !in ks {
        DistinctSnoc(ks, KeyOf(rows, last));
      }
    }
  }

  /** When it exists, the key list holds each relationship's key and nothing else. */
  lemma {:induction false} RelationTypesKeys(objs: seq<StixObject>, rows: seq<Dict>)
    requires forall d :: d in rows ==> NodeRow(d)
    requires forall o :: o in objs && IsRelationship(o) ==> Get(o.props, "relationship_type").Str?
    requires RelationTypes(objs, rows).Success?
    ensures forall k :: k in RelationTypes(objs, rows).value <==> KeyUsed(objs, rows, k)
  {
    if objs != [] {
      var last := objs[|objs| - 1];
      var init := objs[..|objs| - 1];
      RelationTypesStep(objs, rows);
      RelationTypesKeys(init, rows);
      forall k ensures k in RelationTypes(objs, rows).value <==> KeyUsed(objs, rows, k) {
        KeyUsedSnoc(init, last, rows, k);
        RelationTypesStepKey(objs, rows, k);
      }
    }
  }

  /** One relation table per key: `FROM` the source class `TO` the target class, with the Relationship columns. */
  function RelTableDef(relCols: seq<(string, ColumnType)>, k: RelKey): string
  {
    "CREATE REL TABLE " + RelationName(k.lab, k.source, k.target)
      + " (FROM " + k.source + " TO " + k.target + ", " + ColumnDefs(relCols) + ");\n"
  }

  function RelTablesText(relCols: seq<(string, ColumnType)>, keys: seq<RelKey>): string
  {
    Concat(seq(|keys|, i requires 0 <= i < |keys| => RelTableDef(relCols, keys[i])))
  }

  /** The `statement +=` loop over `all_relation_types`. */
  method BuildRelTables(relCols: seq<(string, ColumnType)>, keys: seq<RelKey>) returns (statement: string)
    ensures statement == RelTablesText(relCols, keys)
  {
    ghost var defs := seq(|keys|, i requires 0 <= i < |keys| => RelTableDef(relCols, keys[i]));
    statement := "";
    for i := 0 to |keys|
      invariant statement == Concat(defs[..i])
    {
      TakeSnoc(defs, i);
      statement := statement + RelTableDef(relCols, keys[i]);
    }
    TakeAll(defs);
  }

  // ----- relation copies -----

  /** The relation-row filter of one key: same label, same source class, same target class. */
  predicate Matches(d: Dict, k: RelKey)
  {
    && Get(d, "relationship_type") == Str(k.lab)
    && Get(d, "source_type") == Cls(k.source)
    && Get(d, "target_type") == Cls(k.target)
  }

  function Selected(rows: seq<Dict>, k: RelKey): (r: seq<Dict>)
    ensures forall d :: d in r <==> d in rows && Matches(d, k)
  {
    if rows == [] then []
    else (if Matches(rows[0], k) then [rows[0]] else []) + Selected(rows[1..], k)
  }

  /** Selecting keeps the order of the rows: selecting from two blocks of rows selects from each in turn. */
  lemma {:induction false} SelectedConcat(a: seq<Dict>, b: seq<Dict>, k: RelKey)
    ensures Selected(a + b, k) == Selected(a, k) + Selected(b, k)
  {
    if a == [] {
      assert a + b == b;
    } else {
      var ab := a + b;
      assert ab[0] == a[0];
      assert ab[1..] == a[1..] + b;
      SelectedConcat(a[1..], b, k);
    }
  }

  /** `type_relations`: a key's rows without the two endpoint-type columns. */
  function TypeRelations(relations: Frame, k: RelKey): Frame
    requires forall d :: d in relations.rows ==> d.Valid()
  {
    var selected := Frame(relations.columns, Selected(relations.rows, k));
    DropColumn(DropColumn(selected, "source_type"), "target_type")
  }

  function CopyStatement(relations: Frame, k: RelKey): Statement
    requires forall d :: d in relations.rows ==> d.Valid()
  {
    Statement("COPY " + RelationName(k.lab, k.source, k.target) + " FROM type_relations",
              Bound("type_relations", TypeRelations(relations, k)))
  }

  function CopyStatements(relations: Frame, keys: seq<RelKey>): (r: seq<Statement>)
    requires forall d :: d in relations.rows ==> d.Valid()
    ensures |r| == |keys|
  {
    seq(|keys|, i requires 0 <= i < |keys| => CopyStatement(relations, keys[i]))
  }

  /** The loop over `all_relation_types` copying each key's relation rows. */
  method CopyRelations(conn: Connection, relations: Frame, keys: seq<RelKey>)
    requires forall d :: d in relations.rows ==> d.Valid()
    modifies conn
    ensures conn.log == old(conn.log) + CopyStatements(relations, keys)
  {
    ghost var copies := CopyStatements(relations, keys);
    for i := 0 to |keys|
      invariant conn.log == old(conn.log) + copies[..i]
    {
      var k := keys[i];
      assert copies[i] == CopyStatement(relations, k);
      conn.Execute("COPY " + RelationName(k.lab, k.source, k.target) + " FROM type_relations",
                   Bound("type_relations", TypeRelations(relations, k)));
      TakeSnoc(copies, i);
      AppendAssoc(old(conn.log), copies[..i], [copies[i]]);
    }
    TakeAll(copies);
  }

  /** Rows selected for two different keys are different rows: the copies never share a row. */
  lemma SelectionsDisjoint(rows: seq<Dict>, k1: RelKey, k2: RelKey)
    requires k1 != k2
    ensures forall d :: d in Selected(rows, k1) ==> d !in Selected(rows, k2)
  {
  }

  /** A kept relationship's record is selected by the relationship's key. */
  lemma RecordMatchesKey(relSchema: Schema, rows: seq<Dict>, o: StixObject)
    requires RelationSchemaOk(relSchema) && ("relationship_type", StringProperty) in relSchema
    requires forall d :: d in rows ==> NodeRow(d)
    requires BothRetained(rows, o) && Get(o.props, "relationship_type").Str?
    ensures Matches(KeptRecord(relSchema, rows, o), KeyOf(rows, o))
  {
    var src := NodeType(rows, Get(o.props, "source_ref")).value;
    var tgt := NodeType(rows, Get(o.props, "target_ref")).value;
    assert src.Cls? && tgt.Cls?;
    assert "relationship_type" in SupportedNames(relSchema) by {
      assert ("relationship_type", StringProperty) in relSchema;
    }
    RelationRecordContents(relSchema, o, src, tgt);
  }

  /**
   * When every relationship's endpoints are retained, each relation record
   * is selected by the key of its relationship, one of `RelationTypes`; by
   * `SelectionsDisjoint` it is selected by no other.
   */
  lemma {:induction false} CopiesCoverRecords(relSchema: Schema, objs: seq<StixObject>, rows: seq<Dict>)
    requires RelationSchemaOk(relSchema) && ("relationship_type", StringProperty) in relSchema
    requires forall o :: o in objs && IsRelationship(o) ==> Get(o.props, "relationship_type").Str?
    requires forall d :: d in rows ==> NodeRow(d)
    requires AllRetained(objs, rows)
    ensures var r := RelationTypes(objs, rows);
            && r.Success?
            && forall d :: d in RelationRecords(relSchema, objs, rows) ==>
                 exists i :: 0 <= i < |r.value| && Matches(d, r.value[i])
  {
    RelationTypesSucceeds(objs, rows);
    var keys := RelationTypes(objs, rows).value;
    var recs := RelationRecords(relSchema, objs, rows);
    var kept := KeptRelationships(objs, rows);
    RelationTypesKeys(objs, rows);
    RelationRecordsPerRelationship(relSchema, objs, rows);
    forall d | d in recs ensures exists i :: 0 <= i < |keys| && Matches(d, keys[i]) {
      var n :| 0 <= n < |recs| && recs[n] == d;
      var o := kept[n];
      assert o in kept;
      RecordMatchesKey(relSchema, rows, o);
      var k := KeyOf(rows, o);
      assert o in objs && HasKey(rows, o, k);
      assert KeyUsed(objs, rows, k);
      assert k in keys;
      var i :| 0 <= i < |keys| && keys[i] == k;
    }
  }

  /** `KeyUsedSnoc` for every key at once. */
  lemma KeyUsedSnocAll(init: seq<StixObject>, last: StixObject, rows: seq<Dict>)
    ensures forall k :: KeyUsed(init + [last], rows, k) <==> KeyUsed(init, rows, k) || HasKey(rows, last, k)
  {
    forall k ensures KeyUsed(init + [last], rows, k) <==> KeyUsed(init, rows, k) || HasKey(rows, last, k) {
      KeyUsedSnoc(init, last, rows, k);
    }
  }

  /**
   * The key list the loader evidently intends (its relation records already
   * keep only relationships whose endpoints were kept): the distinct keys of
   * the relationships both of whose endpoints survived sampling, in order of
   * first appearance. It never fails, and holds each used key once.
   */
  function KeptRelationTypes(objs: seq<StixObject>, rows: seq<Dict>): (r: seq<RelKey>)
    requires forall d :: d in rows ==> NodeRow(d)
    requires forall o :: o in objs && IsRelationship(o) ==> Get(o.props, "relationship_type").Str?
    ensures forall i, j :: 0 <= i < j < |r| ==> r[i] != r[j]
  {
    if objs == [] then []
    else
      var last := objs[|objs| - 1];
      var init := objs[..|objs| - 1];
      assert last in objs;
      assert forall o :: o in init ==> o in objs;
      var keys := KeptRelationTypes(init, rows);
      if !BothRetained(rows, last) then keys
      else
        var k := KeyOf(rows, last);
        if k in keys then keys
        else
          DistinctSnoc(keys, k);
          keys + [k]
  }

  /** The intended key list holds each key of a relationship with both endpoints retained, and nothing else. */
  lemma {:induction false} KeptRelationTypesKeys(objs: seq<StixObject>, rows: seq<Dict>)
    requires forall d :: d in rows ==> NodeRow(d)
    requires forall o :: o in objs && IsRelationship(o) ==> Get(o.props, "relationship_type").Str?
    ensures forall k :: k in KeptRelationTypes(objs, rows) <==> KeyUsed(objs, rows, k)
  {
    if objs != [] {
      var last := objs[|objs| - 1];
      var init := objs[..|objs| - 1];
      assert objs == init + [last];
      assert forall o :: o in init ==> o in objs;
      KeptRelationTypesKeys(init, rows);
      KeyUsedSnocAll(init, last, rows);
    }
  }

  /** When every endpoint is retained, the intended key list is the one `RelationTypes` builds. */
  lemma {:induction false} KeptRelationTypesAgree(objs: seq<StixObject>, rows: seq<Dict>)
    requires forall d :: d in rows ==> NodeRow(d)
    requires forall o :: o in objs && IsRelationship(o) ==> Get(o.props, "relationship_type").Str?
    requires AllRetained(objs, rows)
    ensures RelationTypes(objs, rows) == Success(KeptRelationTypes(objs, rows))
  {
    if objs != [] {
      var init := objs[..|objs| - 1];
      assert forall o :: o in init ==> o in objs;
      KeptRelationTypesAgree(init, rows);
      assert objs[|objs| - 1] in objs;
    }
  }

  /**
   * Whatever sampling dropped, each relation record is selected by one of the
   * intended keys (and, by `SelectionsDisjoint`, by no other).
   */
  lemma {:induction false} KeptCopiesCoverRecords(relSchema: Schema, objs: seq<StixObject>, rows: seq<Dict>)
    requires RelationSchemaOk(relSchema) && ("relationship_type", StringProperty) in relSchema
    requires forall o :: o in objs && IsRelationship(o) ==> Get(o.props, "relationship_type").Str?
    requires forall d :: d in rows ==> NodeRow(d)
    ensures var keys := KeptRelationTypes(objs, rows);
            forall d :: d in RelationRecords(relSchema, objs, rows) ==>
              exists i :: 0 <= i < |keys| && Matches(d, keys[i])
  {
    var keys := KeptRelationTypes(objs, rows);
    var recs := RelationRecords(relSchema, objs, rows);
    var kept := KeptRelationships(objs, rows);
    RelationRecordsPerRelationship(relSchema, objs, rows);
    forall d | d in recs ensures exists i :: 0 <= i < |keys| && Matches(d, keys[i]) {
      var n :| 0 <= n < |recs| && recs[n] == d;
      assert kept[n] in kept;
      KeyListed(relSchema, objs, rows, kept[n]);
    }
  }

  /**
   * A relationship of the bundle with both endpoints retained has its key in
   * the intended list, and its record matches that key.
   */
  lemma KeyListed(relSchema: Schema, objs: seq<StixObject>, rows: seq<Dict>, o: StixObject)
    requires RelationSchemaOk(relSchema) && ("relationship_type", StringProperty) in relSchema
    requires forall d :: d in rows ==> NodeRow(d)
    requires forall o :: o in objs && IsRelationship(o) ==> Get(o.props, "relationship_type").Str?
    requires o in objs && BothRetained(rows, o)
    ensures var keys := KeptRelationTypes(objs, rows);
            exists i :: 0 <= i < |keys| && Matches(KeptRecord(relSchema, rows, o), keys[i])
  {
    var keys := KeptRelationTypes(objs, rows);
    KeyInKeptList(objs, rows, o);
    RecordMatchesKey(relSchema, rows, o);
    var i :| 0 <= i < |keys| && keys[i] == KeyOf(rows, o);
  }

  /** The key of a kept relationship of the bundle is in the intended list. */
  lemma KeyInKeptList(objs: seq<StixObject>, rows: seq<Dict>, o: StixObject)
    requires forall d :: d in rows ==> NodeRow(d)
    requires forall o :: o in objs && IsRelationship(o) ==> Get(o.props, "relationship_type").Str?
    requires o in objs && BothRetained(rows, o)
    ensures KeyOf(rows, o) in KeptRelationTypes(objs, rows)
  {
    KeptRelationTypesKeys(objs, rows);
    assert HasKey(rows, o, KeyOf(rows, o));
  }

  // ----- the whole run -----

  /** The sampler's arguments for the node frame: a random order of its rows and the rounded fraction size. */
  predicate SamplerInputs(d: Dataset, population: nat, perm: seq<nat>, fracSize: nat)
  {
    && Sampling.IsPermutation(perm, population)
    && (d.samplingRatio.Some? && 0.0 <= d.samplingRatio.value <= 1.0 ==> fracSize <= population)
  }

  /**
   * The node frame after the optional sampling step, or why sampling refused.
   * Without sampling it is the whole frame; with it, its rows are rows of the
   * frame, each used at most once, and count sampling keeps exactly `count`
   * rows, refusing a count above the number of rows.
   */
  function SampledNodes(d: Dataset, nodes: Frame, perm: seq<nat>, fracSize: nat): (r: Result<Frame, IngestError>)
    requires SamplerInputs(d, |nodes.rows|, perm, fracSize)
    ensures !SamplingRequested(d) ==> r == Success(nodes)
    ensures r.Success? ==> r.value.columns == nodes.columns
    ensures r.Success? ==> multiset(r.value.rows) <= multiset(nodes.rows)
    ensures r.Success? ==> forall x :: x in r.value.rows ==> x in nodes.rows
    ensures d.samplingRatio.None? && d.samplingCount.Some? && d.samplingCount.value >= 0 ==>
              (r.Success? <==> d.samplingCount.value <= |nodes.rows|)
              && (r.Success? ==> |r.value.rows| == d.samplingCount.value)
    ensures r.Failure? ==> r.error == SampleRejected
  {
    if !SamplingRequested(d) then Success(nodes)
    else
      Sampling.SampleIsSubBag(nodes.rows, d.samplingCount, d.samplingRatio, perm, fracSize);
      var sample := Sampling.Sample(nodes.rows, d.samplingCount, d.samplingRatio, perm, fracSize);
      assert d.samplingRatio.None? && d.samplingCount.Some? && d.samplingCount.value >= 0 ==>
               (sample.Success? <==> d.samplingCount.value <= |nodes.rows|)
               && (sample.Success? ==> |sample.value| == d.samplingCount.value) by {
        if d.samplingRatio.None? && d.samplingCount.Some? && d.samplingCount.value >= 0 {
          Sampling.SampleByCount(nodes.rows, d.samplingCount.value, perm);
        }
      }
      match sample
      case Failure(_) => Failure(SampleRejected)
      case Success(rows) => Success(Frame(nodes.columns, rows))
  }

  /** The node-table statement followed by one load per retained class. */
  function NodeStatements(catalog: Catalog, nodes: Frame): seq<Statement>
    requires CatalogRows(catalog, nodes.rows)
  {
    var types := NodeTypes(nodes.rows);
    [Statement(NodeTablesText(catalog, types), NoScope)] + LoadStatements(nodes, types)
  }

  /** The relation-table statement followed by one copy per key. */
  function RelationStatements(catalog: Catalog, objs: seq<StixObject>, nodes: Frame, keys: seq<RelKey>): seq<Statement>
    requires ValidCatalog(catalog)
  {
    var relSchema := catalog[RelationshipClass];
    var relations := FromRecords(RelationRecords(relSchema, objs, nodes.rows));
    [Statement(RelTablesText(TableColumns(relSchema), keys), NoScope)] + CopyStatements(relations, keys)
  }

  /** What the run issues once the node frame is sampled and has its `type` column. */
  function PlanFromNodes(catalog: Catalog, objs: seq<StixObject>, nodes: Frame): Run
    requires Bundle(catalog, objs)
    requires CatalogRows(catalog, nodes.rows)
  {
    match RelationTypes(objs, nodes.rows)
    case Failure(e) => Run(NodeStatements(catalog, nodes), Aborted(e))
    case Success(keys) => Run(NodeStatements(catalog, nodes) + RelationStatements(catalog, objs, nodes, keys), Done)
  }

  /**
   * The statements `instanciate_dataset_in_kuzu` issues for a parsed bundle,
   * in order, and how it ends. `pathIsDir` stands for the check that the
   * database path is already a directory.
   */
  function Plan(catalog: Catalog, objs: seq<StixObject>, d: Dataset, perm: seq<nat>, fracSize: nat,
                pathIsDir: bool): (r: Run)
    requires Bundle(catalog, objs)
    requires SamplerInputs(d, |NodeRecords(catalog, objs)|, perm, fracSize)
    ensures pathIsDir ==> r == Run([], Aborted(TargetAlreadyExists))
    ensures r.status.Aborted? && r.statements != [] ==> r.status.error == EndpointNotRetained
  {
    if pathIsDir then Run([], Aborted(TargetAlreadyExists))
    else
      var all := FromRecords(NodeRecords(catalog, objs));
      match SampledNodes(d, all, perm, fracSize)
      case Failure(e) => Run([], Aborted(e))
      case Success(nodes) =>
        if "type" !in nodes.columns then Run([], Aborted(MissingColumn("type")))
        else PlanFromNodes(catalog, objs, nodes)
  }

  /** Creates the node tables in one statement, then loads each class's nodes. */
  method CreateNodes(conn: Connection, catalog: Catalog, nodes: Frame)
    requires CatalogRows(catalog, nodes.rows)
    modifies conn
    ensures conn.log == old(conn.log) + NodeStatements(catalog, nodes)
  {
    var types := NodeTypes(nodes.rows);
    var statement := BuildNodeTables(catalog, types);
    ghost var log0 := conn.log;
    conn.Execute(statement, NoScope);
    LoadNodeTables(conn, nodes, types);
    AppendAssoc(log0, [Statement(statement, NoScope)], LoadStatements(nodes, types));
  }

  /** Creates the relation tables in one statement, then copies each key's relation rows. */
  method CreateRelations(conn: Connection, catalog: Catalog, objs: seq<StixObject>, nodes: Frame, keys: seq<RelKey>)
    requires ValidCatalog(catalog)
    modifies conn
    ensures conn.log == old(conn.log) + RelationStatements(catalog, objs, nodes, keys)
  {
    var relSchema := catalog[RelationshipClass];
    var statement := BuildRelTables(TableColumns(relSchema), keys);
    ghost var log0 := conn.log;
    conn.Execute(statement, NoScope);
    var relations := ObjectsToRelations(relSchema, objs, nodes);
    CopyRelations(conn, relations, keys);
    AppendAssoc(log0, [Statement(statement, NoScope)], CopyStatements(relations, keys));
  }

  /** Node tables and loads, then, when every endpoint is retained, relation tables and copies. */
  method InstantiateFromNodes(conn: Connection, catalog: Catalog, objs: seq<StixObject>, nodes: Frame)
    returns (status: Status)
    requires Bundle(catalog, objs)
    requires CatalogRows(catalog, nodes.rows)
    modifies conn
    ensures var run := PlanFromNodes(catalog, objs, nodes);
            conn.log == old(conn.log) + run.statements && status == run.status
  {
    ghost var log0 := conn.log;
    CreateNodes(conn, catalog, nodes);
    var keys := RelationTypes(objs, nodes.rows);
    if keys.Failure? {
      return Aborted(keys.error);
    }
    CreateRelations(conn, catalog, objs, nodes, keys.value);
    AppendAssoc(log0, NodeStatements(catalog, nodes), RelationStatements(catalog, objs, nodes, keys.value));
    return Done;
  }

  /** The loader itself, executing against `conn` what `Plan` describes. */
  method Instantiate(conn: Connection, catalog: Catalog, objs: seq<StixObject>, d: Dataset,
                     perm: seq<nat>, fracSize: nat, pathIsDir: bool)
    returns (status: Status)
    requires Bundle(catalog, objs)
    requires SamplerInputs(d, |NodeRecords(catalog, objs)|, perm, fracSize)
    modifies conn
    ensures var run := Plan(catalog, objs, d, perm, fracSize, pathIsDir);
            conn.log == old(conn.log) + run.statements && status == run.status
  {
    if pathIsDir {
      return Aborted(TargetAlreadyExists);
    }
    var all := ObjectsToNodes(catalog, objs);
    var sampled := SampledNodes(d, all, perm, fracSize);
    if sampled.Failure? {
      return Aborted(sampled.error);
    }
    var nodes := sampled.value;
    if "type" !in nodes.columns {
      return Aborted(MissingColumn("type"));
    }
    status := InstantiateFromNodes(conn, catalog, objs, nodes);
  }

  // ----- the intended run -----

  /** What the run issues from the node frame when the relation tables and copies use the intended keys. */
  function PlanFromKeptNodes(catalog: Catalog, objs: seq<StixObject>, nodes: Frame): Run
    requires Bundle(catalog, objs)
    requires CatalogRows(catalog, nodes.rows)
  {
    var keys := KeptRelationTypes(objs, nodes.rows);
    Run(NodeStatements(catalog, nodes) + RelationStatements(catalog, objs, nodes, keys), Done)
  }

  /**
   * `Plan` with the intended key list: the same checks before any statement,
   * after which the run always completes.
   */
  function CorrectedPlan(catalog: Catalog, objs: seq<StixObject>, d: Dataset, perm: seq<nat>, fracSize: nat,
                         pathIsDir: bool): (r: Run)
    requires Bundle(catalog, objs)
    requires SamplerInputs(d, |NodeRecords(catalog, objs)|, perm, fracSize)
    ensures pathIsDir ==> r == Run([], Aborted(TargetAlreadyExists))
    ensures r.statements != [] <==> r.status == Done
  {
    if pathIsDir then Run([], Aborted(TargetAlreadyExists))
    else
      match NodeFrame(catalog, objs, d, perm, fracSize)
      case Failure(e) => Run([], Aborted(e))
      case Success(nodes) =>
        if "type" !in nodes.columns then Run([], Aborted(MissingColumn("type")))
        else PlanFromKeptNodes(catalog, objs, nodes)
  }

  /** The loader with the intended key list, executing against `conn` what `CorrectedPlan` describes. */
  method InstantiateKeepingRetained(conn: Connection, catalog: Catalog, objs: seq<StixObject>, d: Dataset,
                                    perm: seq<nat>, fracSize: nat, pathIsDir: bool)
    returns (status: Status)
    requires Bundle(catalog, objs)
    requires SamplerInputs(d, |NodeRecords(catalog, objs)|, perm, fracSize)
    modifies conn
    ensures var run := CorrectedPlan(catalog, objs, d, perm, fracSize, pathIsDir);
            conn.log == old(conn.log) + run.statements && status == run.status
  {
    if pathIsDir {
      return Aborted(TargetAlreadyExists);
    }
    var all := ObjectsToNodes(catalog, objs);
    var sampled := SampledNodes(d, all, perm, fracSize);
    if sampled.Failure? {
      return Aborted(sampled.error);
    }
    var nodes := sampled.value;
    if "type" !in nodes.columns {
      return Aborted(MissingColumn("type"));
    }
    ghost var log0 := conn.log;
    CreateNodes(conn, catalog, nodes);
    var keys := KeptRelationTypes(objs, nodes.rows);
    CreateRelations(conn, catalog, objs, nodes, keys);
    AppendAssoc(log0, NodeStatements(catalog, nodes), RelationStatements(catalog, objs, nodes, keys));
    return Done;
  }

  /**
   * Once the node frame exists and has its `type` column, the intended run
   * always completes: node tables and loads, then one relation table and
   * one copy per intended key. When every endpoint survived sampling it is
   * exactly the run `Plan` describes.
   */
  lemma CorrectedPlanOutcome(catalog: Catalog, objs: seq<StixObject>, d: Dataset, perm: seq<nat>, fracSize: nat)
    requires Bundle(catalog, objs)
    requires SamplerInputs(d, |NodeRecords(catalog, objs)|, perm, fracSize)
    requires NodeFrame(catalog, objs, d, perm, fracSize).Success?
    requires "type" in NodeFrame(catalog, objs, d, perm, fracSize).value.columns
    ensures var nodes := NodeFrame(catalog, objs, d, perm, fracSize).value;
            var run := CorrectedPlan(catalog, objs, d, perm, fracSize, false);
            && run.status == Done
            && run.statements == NodeStatements(catalog, nodes)
                 + RelationStatements(catalog, objs, nodes, KeptRelationTypes(objs, nodes.rows))
            && (AllRetained(objs, nodes.rows) ==> run == Plan(catalog, objs, d, perm, fracSize, false))
  {
    var nodes := NodeFrame(catalog, objs, d, perm, fracSize).value;
    if AllRetained(objs, nodes.rows) {
      KeptRelationTypesAgree(objs, nodes.rows);
    }
  }

  /**
   * Where sampling dropped an endpoint of some relationship, the run as
   * written stops with `EndpointNotRetained`, leaving the node tables created
   * and loaded and no relation table, while the intended run completes and
   * issues those same node statements first.
   */
  lemma DroppedEndpointDiverges(catalog: Catalog, objs: seq<StixObject>, d: Dataset, perm: seq<nat>, fracSize: nat)
    requires Bundle(catalog, objs)
    requires SamplerInputs(d, |NodeRecords(catalog, objs)|, perm, fracSize)
    requires NodeFrame(catalog, objs, d, perm, fracSize).Success?
    requires "type" in NodeFrame(catalog, objs, d, perm, fracSize).value.columns
    requires !AllRetained(objs, NodeFrame(catalog, objs, d, perm, fracSize).value.rows)
    ensures var nodes := NodeFrame(catalog, objs, d, perm, fracSize).value;
            var asWritten := Plan(catalog, objs, d, perm, fracSize, false);
            var intended := CorrectedPlan(catalog, objs, d, perm, fracSize, false);
            && asWritten == Run(NodeStatements(catalog, nodes), Aborted(EndpointNotRetained))
            && intended.status == Done
            && intended.statements[..|asWritten.statements|] == asWritten.statements
  {
    PlanOutcome(catalog, objs, d, perm, fracSize);
    CorrectedPlanOutcome(catalog, objs, d, perm, fracSize);
  }

  /**
   * Without sampling, the intended run completes on any bundle with at least
   * one node object, whatever its relationships reference, and a bundle with
   * no node objects still stops with `MissingColumn("type")` before issuing
   * anything.
   */
  lemma UnsampledCorrectedPlan(catalog: Catalog, objs: seq<StixObject>, d: Dataset, perm: seq<nat>, fracSize: nat)
    requires Bundle(catalog, objs)
    requires SamplerInputs(d, |NodeRecords(catalog, objs)|, perm, fracSize)
    requires !SamplingRequested(d)
    ensures var run := CorrectedPlan(catalog, objs, d, perm, fracSize, false);
            && (NodeObjects(objs) == [] ==> run == Run([], Aborted(MissingColumn("type"))))
            && (NodeObjects(objs) != [] ==> run.status == Done)
  {
    var records := NodeRecords(catalog, objs);
    NodeRecordsPerObject(catalog, objs);
    if NodeObjects(objs) == [] {
      assert !InSomeRow(records, "type");
    } else {
      assert records[0] in records;
      assert InSomeRow(records, "type");
      CorrectedPlanOutcome(catalog, objs, d, perm, fracSize);
    }
  }

  // ----- properties of the whole run -----

  /** The node frame the run works on, before any statement is issued. */
  function NodeFrame(catalog: Catalog, objs: seq<StixObject>, d: Dataset, perm: seq<nat>, fracSize: nat): Result<Frame, IngestError>
    requires Bundle(catalog, objs)
    requires SamplerInputs(d, |NodeRecords(catalog, objs)|, perm, fracSize)
  {
    SampledNodes(d, FromRecords(NodeRecords(catalog, objs)), perm, fracSize)
  }

  /**
   * Once the node frame exists and has its `type` column, the node tables
   * and loads are always issued; the run completes exactly when every
   * relationship's endpoints survived sampling, and otherwise stops with
   * `EndpointNotRetained` before any relation statement. An existing
   * database directory stops the run before anything is issued.
   */
  lemma PlanOutcome(catalog: Catalog, objs: seq<StixObject>, d: Dataset, perm: seq<nat>, fracSize: nat)
    requires Bundle(catalog, objs)
    requires SamplerInputs(d, |NodeRecords(catalog, objs)|, perm, fracSize)
    requires NodeFrame(catalog, objs, d, perm, fracSize).Success?
    requires "type" in NodeFrame(catalog, objs, d, perm, fracSize).value.columns
    ensures var nodes := NodeFrame(catalog, objs, d, perm, fracSize).value;
            var run := Plan(catalog, objs, d, perm, fracSize, false);
            && (run.status == Done <==> AllRetained(objs, nodes.rows))
            && (run.status != Done ==>
                  run.status == Aborted(EndpointNotRetained) && run.statements == NodeStatements(catalog, nodes))
            && (run.status == Done ==>
                  run.statements == NodeStatements(catalog, nodes)
                    + RelationStatements(catalog, objs, nodes, RelationTypes(objs, nodes.rows).value))
    ensures Plan(catalog, objs, d, perm, fracSize, true) == Run([], Aborted(TargetAlreadyExists))
  {
    var nodes := NodeFrame(catalog, objs, d, perm, fracSize).value;
    RelationTypesSucceeds(objs, nodes.rows);
  }

  /**
   * A completed run issues, in order: the node-table statement, one load per
   * retained class, the relation-table statement, one copy per key (the
   * keys being `RelationTypes(objs, nodes.rows)`, see `PlanOutcome`).
   */
  lemma StatementOrder(catalog: Catalog, objs: seq<StixObject>, nodes: Frame, keys: seq<RelKey>)
    requires ValidCatalog(catalog)
    requires CatalogRows(catalog, nodes.rows)
    ensures var types := NodeTypes(nodes.rows);
            var relations := FromRecords(RelationRecords(catalog[RelationshipClass], objs, nodes.rows));
            var st := NodeStatements(catalog, nodes) + RelationStatements(catalog, objs, nodes, keys);
            && |st| == 2 + |types| + |keys|
            && st == [Statement(NodeTablesText(catalog, types), NoScope)]
                     + LoadStatements(nodes, types)
                     + [Statement(RelTablesText(TableColumns(catalog[RelationshipClass]), keys), NoScope)]
                     + CopyStatements(relations, keys)
  {
    var types := NodeTypes(nodes.rows);
    var relSchema := catalog[RelationshipClass];
    var relations := FromRecords(RelationRecords(relSchema, objs, nodes.rows));
    var head := [Statement(NodeTablesText(catalog, types), NoScope)] + LoadStatements(nodes, types);
    var relTable := [Statement(RelTablesText(TableColumns(relSchema), keys), NoScope)];
    var copies := CopyStatements(relations, keys);
    assert NodeStatements(catalog, nodes) == head;
    assert RelationStatements(catalog, objs, nodes, keys) == relTable + copies;
    AppendAssoc(head, relTable, copies);
  }

  /** A completed run got past the path check, the sampler and the `type` column, and then ran `PlanFromNodes`. */
  lemma CompletedPlan(catalog: Catalog, objs: seq<StixObject>, d: Dataset, perm: seq<nat>, fracSize: nat, pathIsDir: bool)
    requires Bundle(catalog, objs)
    requires SamplerInputs(d, |NodeRecords(catalog, objs)|, perm, fracSize)
    requires Plan(catalog, objs, d, perm, fracSize, pathIsDir).status == Done
    ensures !pathIsDir
    ensures var nodes := NodeFrame(catalog, objs, d, perm, fracSize);
            && nodes.Success? && "type" in nodes.value.columns
            && CatalogRows(catalog, nodes.value.rows)
            && Plan(catalog, objs, d, perm, fracSize, pathIsDir) == PlanFromNodes(catalog, objs, nodes.value)
  {
  }

  /** Some non-relationship object of the bundle has id `ref`. */
  predicate IdInBundle(objs: seq<StixObject>, ref: Value)
  {
    exists n :: n in objs && !IsRelationship(n) && Get(n.props, "id") == ref
  }

  /** Every relationship's refs name objects of the bundle. */
  predicate RefsResolve(objs: seq<StixObject>)
  {
    forall o :: o in objs && IsRelationship(o) ==>
      IdInBundle(objs, Get(o.props, "source_ref")) && IdInBundle(objs, Get(o.props, "target_ref"))
  }

  /** An object's node record carries the object's id. */
  lemma IdRetained(catalog: Catalog, objs: seq<StixObject>, ref: Value)
    requires Bundle(catalog, objs)
    requires IdInBundle(objs, ref)
    ensures Retained(NodeRecords(catalog, objs), ref)
  {
    var n :| n in objs && !IsRelationship(n) && Get(n.props, "id") == ref;
    NodeRecordsPerObject(catalog, objs);
    var nodes := NodeObjects(objs);
    var i :| 0 <= i < |nodes| && nodes[i] == n;
    var rec := NodeRecords(catalog, objs)[i];
    NodeRecordContents(catalog, n);
    assert Get(rec, "id") == ref;
  }

  /**
   * Without sampling, a bundle whose relationships only reference its own
   * objects loads completely, and a bundle with no node objects at all
   * stops with `MissingColumn("type")` before issuing anything.
   */
  lemma UnsampledPlan(catalog: Catalog, objs: seq<StixObject>, d: Dataset, perm: seq<nat>, fracSize: nat)
    requires Bundle(catalog, objs)
    requires SamplerInputs(d, |NodeRecords(catalog, objs)|, perm, fracSize)
    requires !SamplingRequested(d)
    ensures var run := Plan(catalog, objs, d, perm, fracSize, false);
            && (NodeObjects(objs) == [] ==> run == Run([], Aborted(MissingColumn("type"))))
            && (NodeObjects(objs) != [] && RefsResolve(objs) ==> run.status == Done)
  {
    var records := NodeRecords(catalog, objs);
    NodeRecordsPerObject(catalog, objs);
    if NodeObjects(objs) == [] {
      assert !InSomeRow(records, "type");
    } else {
      assert records[0] in records;
      assert InSomeRow(records, "type");
      if RefsResolve(objs) {
        forall o | o in objs && IsRelationship(o) ensures BothRetained(records, o) {
          IdRetained(catalog, objs, Get(o.props, "source_ref"));
          IdRetained(catalog, objs, Get(o.props, "target_ref"));
        }
        PlanOutcome(catalog, objs, d, perm, fracSize);
      }
    }
  }
}
