/**
 * The knowledge-graph triples adapter: one `Node` table holding every
 * entity, one relation table per relation label, and the training triples
 * created batch by batch with MATCH ... CREATE statements. The on-disk
 * DGL-KE loader is not modelled: its entity and relation dictionaries and
 * its three parallel training arrays are inputs.
 */
module Dglke {
  import opened Wrappers
  import opened Seqs
  import opened Text
  import opened Frames
  import opened Store
  import opened Models
  import Sampling
  import Batching

  const BatchSize: nat := 50
  const NodeClass := "Node"

  // ---------------------------------------------------------------------------
  // Label normalisation: slugify(label).replace("-", " ").title().replace(" ", "")

  predicate IsLower(c: char) { 'a' <= c <= 'z' }
  predicate IsUpper(c: char) { 'A' <= c <= 'Z' }
  predicate IsLetter(c: char) { IsLower(c) || IsUpper(c) }

  function ToUpper(c: char): (r: char)
    ensures IsLetter(c) ==> IsUpper(r)
    ensures !IsLetter(c) ==> r == c
  {
    if IsLower(c) then (c as int - 32) as char else c
  }

  function ToLower(c: char): (r: char)
    ensures IsLetter(c) ==> IsLower(r)
    ensures !IsLetter(c) ==> r == c
  {
    if IsUpper(c) then (c as int + 32) as char else c
  }

  /**
   * `str.title` on ASCII text, scanning left to right: a letter after a
   * letter is lower-cased, any other letter is upper-cased, and every
   * non-letter (a digit, a space) both stays as it is and starts a new word.
   */
  function TitleFrom(s: string, afterLetter: bool): (r: string)
    ensures |r| == |s|
  {
    if s == [] then []
    else [if afterLetter then ToLower(s[0]) else ToUpper(s[0])] + TitleFrom(s[1..], IsLetter(s[0]))
  }

  function Title(s: string): string { TitleFrom(s, false) }

  /** Each character of `Title(s)`: upper case at the start of a word, lower case inside one. */
  lemma {:induction false} TitleAt(s: string, i: nat)
    requires i < |s|
    ensures |Title(s)| == |s|
    ensures Title(s)[i] == if i == 0 || !IsLetter(s[i - 1]) then ToUpper(s[i]) else ToLower(s[i])
  {
    TitleFromAt(s, false, i);
  }

  lemma {:induction false} TitleFromAt(s: string, afterLetter: bool, i: nat)
    requires i < |s|
    ensures TitleFrom(s, afterLetter)[i] ==
      if (i == 0 && afterLetter) || (i > 0 && IsLetter(s[i - 1])) then ToLower(s[i]) else ToUpper(s[i])
    decreases i
  {
    if i > 0 {
      TitleFromAt(s[1..], IsLetter(s[0]), i - 1);
      assert s[1..][i - 1] == s[i];
      if i > 1 { assert s[1..][i - 2] == s[i - 1]; }
    }
  }

  /** The identifier built from a label's slug. */
  function ClassOrRelationName(slug: string): (r: string)
    ensures ' ' !in r && |r| <= |slug|
  {
    RemoveChar(Title(ReplaceChar(slug, '-', ' ')), ' ')
  }

  /** `label_to_class_or_relation(label)`; `slugify` is the third-party slug function. */
  function LabelToClassOrRelation(slugify: string -> string, text: string): string
  {
    ClassOrRelationName(slugify(text))
  }

  /** What slugify emits: lower-case ASCII letters, digits and `-`. */
  predicate IsSlug(slug: string)
  {
    forall i :: 0 <= i < |slug| ==> IsLower(slug[i]) || IsDigit(slug[i]) || slug[i] == '-'
  }

  /**
   * The identifier holds no space and no `-`, for any slug; it drops exactly
   * the slug's `-` separators; from a slug it is made of letters and digits
   * only; and it is the slug's words joined in PascalCase: each other
   * character of the slug is kept in order, upper case at the start of a
   * word and lower case inside one.
   */
  lemma ClassOrRelationNameIsIdentifier(slug: string)
    ensures var r := ClassOrRelationName(slug);
            && ' ' !in r && '-' !in r
            && (IsSlug(slug) ==> |r| == |slug| - Count(slug, '-'))
            && (IsSlug(slug) ==> forall c :: c in r ==> IsLetter(c) || IsDigit(c))
            && (IsSlug(slug) ==> forall i :: 0 <= i < |slug| && slug[i] != '-' ==>
                  0 <= i - Count(slug[..i], '-') < |r| &&
                  r[i - Count(slug[..i], '-')] ==
                    if i == 0 || !IsLetter(slug[i - 1]) then ToUpper(slug[i]) else ToLower(slug[i]))
  {
    var spaced := ReplaceChar(slug, '-', ' ');
    var titled := Title(spaced);
    assert |titled| == |spaced|;
    forall i | 0 <= i < |titled|
      ensures titled[i] != '-'
      ensures IsSlug(slug) ==> (titled[i] == ' ' <==> slug[i] == '-')
      ensures IsSlug(slug) && slug[i] != '-' ==> IsLetter(titled[i]) || IsDigit(titled[i])
    {
      TitleAt(spaced, i);
    }
    if IsSlug(slug) {
      SameCount(titled, ' ', slug, '-');
      forall i | 0 <= i < |slug| && slug[i] != '-'
        ensures Count(titled[..i], ' ') == Count(slug[..i], '-')
        ensures titled[i] == if i == 0 || !IsLetter(slug[i - 1]) then ToUpper(slug[i]) else ToLower(slug[i])
      {
        SameCount(titled[..i], ' ', slug[..i], '-');
        TitleAt(spaced, i);
      }
    }
  }

  lemma {:induction false} SameCount(s: string, a: char, t: string, b: char)
    requires |s| == |t|
    requires forall i :: 0 <= i < |s| ==> (s[i] == a <==> t[i] == b)
    ensures Count(s, a) == Count(t, b)
  {
    if s != [] {
      SameCount(s[1..], a, t[1..], b);
    }
  }

  // ---------------------------------------------------------------------------
  // Inputs

  datatype Triple = Triple(subject: int, relation: int, obj: int)

  /**
   * What the DGL-KE loader provides: `entity2id` and `relation2id` as the
   * items of their dicts, and the training split as three parallel arrays.
   */
  datatype KgData = KgData(
    entity2id: seq<(string, int)>,
    relation2id: seq<(string, int)>,
    subjects: seq<int>,
    relations: seq<int>,
    objects: seq<int>)

  function RelationIds(relation2id: seq<(string, int)>): set<int>
  {
    set p | p in relation2id :: p.1
  }

  /** The items of a dict: no label listed twice. */
  predicate DistinctLabels(items: seq<(string, int)>)
  {
    forall i, j :: 0 <= i < j < |items| ==> items[i].0 != items[j].0
  }

  /**
   * Both mappings are dicts, the three arrays are aligned and every triple's
   * relation id is a known relation.
   */
  predicate WellFormed(kg: KgData)
  {
    && DistinctLabels(kg.entity2id)
    && DistinctLabels(kg.relation2id)
    && |kg.subjects| == |kg.relations| == |kg.objects|
    && forall i :: 0 <= i < |kg.relations| ==> kg.relations[i] in RelationIds(kg.relation2id)
  }

  function Zip(subjects: seq<int>, relations: seq<int>, objects: seq<int>): (ts: seq<Triple>)
    requires |subjects| == |relations| == |objects|
    ensures |ts| == |subjects|
    ensures forall i :: 0 <= i < |ts| ==> ts[i] == Triple(subjects[i], relations[i], objects[i])
  {
    seq(|subjects|, i requires 0 <= i < |subjects| => Triple(subjects[i], relations[i], objects[i]))
  }

  // ---------------------------------------------------------------------------
  // Sampling filter

  /** Triples with the subject or the object among `keep`, order kept. */
  function Kept(ts: seq<Triple>, keep: set<int>): seq<Triple>
  {
    if ts == [] then []
    else
      var init := Kept(ts[..|ts| - 1], keep);
      var t := ts[|ts| - 1];
      if t.subject in keep || t.obj in keep then init + [t] else init
  }

  /** A triple survives iff its subject or its object is kept. */
  lemma {:induction false} KeptMembership(ts: seq<Triple>, keep: set<int>)
    ensures forall t :: t in Kept(ts, keep) <==> t in ts && (t.subject in keep || t.obj in keep)
  {
    if ts != [] {
      KeptMembership(ts[..|ts| - 1], keep);
      assert ts == ts[..|ts| - 1] + [ts[|ts| - 1]];
    }
  }

  /** Filtering distributes over concatenation, so the survivors keep their relative order. */
  lemma {:induction false} KeptConcat(a: seq<Triple>, b: seq<Triple>, keep: set<int>)
    ensures Kept(a + b, keep) == Kept(a, keep) + Kept(b, keep)
    decreases |b|
  {
    if b == [] {
      assert a + b == a;
    } else {
      var b' := b[..|b| - 1];
      KeptConcat(a, b', keep);
      assert (a + b)[..|a + b| - 1] == a + b';
    }
  }

  /**
   * The subjects, relations and objects arrays filtered in lockstep by
   * `isin(subjects, ids) | isin(objects, ids)`.
   */
  method FilterTriples(subjects: seq<int>, relations: seq<int>, objects: seq<int>, keep: set<int>)
    returns (s: seq<int>, r: seq<int>, o: seq<int>)
    requires |subjects| == |relations| == |objects|
    ensures |s| == |r| == |o|
    ensures Zip(s, r, o) == Kept(Zip(subjects, relations, objects), keep)
  {
    s, r, o := [], [], [];
    var i := 0;
    while i < |subjects|
      invariant 0 <= i <= |subjects|
      invariant |s| == |r| == |o|
      invariant Zip(s, r, o) == Kept(Zip(subjects[..i], relations[..i], objects[..i]), keep)
    {
      var all := Zip(subjects[..i + 1], relations[..i + 1], objects[..i + 1]);
      assert all[..i] == Zip(subjects[..i], relations[..i], objects[..i]);
      if subjects[i] in keep || objects[i] in keep {
        s, r, o := s + [subjects[i]], r + [relations[i]], o + [objects[i]];
      }
      i := i + 1;
    }
    assert subjects[..i] == subjects && relations[..i] == relations && objects[..i] == objects;
  }

  // ---------------------------------------------------------------------------
  // One MATCH ... CREATE statement per batch

  datatype Edge = Edge(subject: int, relation: string, obj: int)

  /** The entity variables a batch binds, and the edges it creates. */
  datatype BatchPlan = BatchPlan(entityIds: seq<int>, edges: seq<Edge>)

  /** The distinct values of `xs`, each once, in order of first appearance. */
  function Distinct(xs: seq<int>): (r: seq<int>)
    ensures forall i, j :: 0 <= i < j < |r| ==> r[i] != r[j]
    ensures forall x :: x in r <==> x in xs
  {
    if xs == [] then []
    else
      var init := Distinct(xs[..|xs| - 1]);
      assert forall x :: x in xs <==> x in xs[..|xs| - 1] || x == xs[|xs| - 1];
      if xs[|xs| - 1] in init then init else init + [xs[|xs| - 1]]
  }

  /** Whether `x` is the subject or the object of some triple of `batch`. */
  predicate Mentions(batch: seq<Triple>, x: int)
  {
    exists t :: t in batch && (x == t.subject || x == t.obj)
  }

  /** The subjects of a batch followed by its objects. */
  function Endpoints(batch: seq<Triple>): (r: seq<int>)
    ensures forall x :: x in r <==> Mentions(batch, x)
  {
    var subjects := seq(|batch|, i requires 0 <= i < |batch| => batch[i].subject);
    var objects := seq(|batch|, i requires 0 <= i < |batch| => batch[i].obj);
    assert forall t :: t in batch ==> t.subject in subjects && t.obj in objects by {
      forall t | t in batch ensures t.subject in subjects && t.obj in objects {
        var i :| 0 <= i < |batch| && batch[i] == t;
        assert subjects[i] == t.subject && objects[i] == t.obj;
      }
    }
    subjects + objects
  }

  /**
   * What the statement for one batch binds and creates: every distinct
   * subject or object id once, and one edge per triple, in order, whose two
   * endpoints are bound.
   */
  function PlanBatch(batch: seq<Triple>, id2relation: map<int, string>): (p: BatchPlan)
    requires forall t :: t in batch ==> t.relation in id2relation
    ensures forall i, j :: 0 <= i < j < |p.entityIds| ==> p.entityIds[i] != p.entityIds[j]
    ensures forall x :: x in p.entityIds <==> Mentions(batch, x)
    ensures |p.edges| == |batch|
    ensures forall i :: 0 <= i < |batch| ==>
              p.edges[i] == Edge(batch[i].subject, id2relation[batch[i].relation], batch[i].obj)
    ensures forall e :: e in p.edges ==> e.subject in p.entityIds && e.obj in p.entityIds
  {
    var ids := Distinct(Endpoints(batch));
    var edges := seq(|batch|, i requires 0 <= i < |batch| =>
      Edge(batch[i].subject, id2relation[batch[i].relation], batch[i].obj));
    assert forall e :: e in edges ==> e.subject in ids && e.obj in ids by {
      forall e | e in edges ensures e.subject in ids && e.obj in ids {
        var i :| 0 <= i < |edges| && edges[i] == e;
        assert batch[i] in batch;
      }
    }
    BatchPlan(ids, edges)
  }

  function NodePattern(id: int): string
  {
    "(n_" + IntToString(id) + ":" + NodeClass + " {id:" + IntToString(id) + "})"
  }

  function EdgePattern(e: Edge): string
  {
    "(n_" + IntToString(e.subject) + ")-[:" + e.relation + "]->(n_" + IntToString(e.obj) + ")"
  }

  /** The statement text: `MATCH <node patterns>` and `CREATE <edge patterns>;` on two lines. */
  function RenderBatch(p: BatchPlan): string
  {
    var matches := seq(|p.entityIds|, i requires 0 <= i < |p.entityIds| => NodePattern(p.entityIds[i]));
    var creates := seq(|p.edges|, i requires 0 <= i < |p.edges| => EdgePattern(p.edges[i]));
    "MATCH " + Join(", ", matches) + "\n" + "CREATE " + Join(", ", creates) + ";"
  }

  /** The plans of all batches, in order. */
  function PlanBatches(batches: seq<seq<Triple>>, id2relation: map<int, string>): (r: seq<BatchPlan>)
    requires forall b, t :: b in batches && t in b ==> t.relation in id2relation
    ensures |r| == |batches|
    ensures forall i :: 0 <= i < |batches| ==> r[i] == PlanBatch(batches[i], id2relation)
  {
    seq(|batches|, i requires 0 <= i < |batches| => PlanBatch(batches[i], id2relation))
  }

  function BatchStatements(plans: seq<BatchPlan>): (r: seq<Statement>)
    ensures |r| == |plans|
  {
    seq(|plans|, i requires 0 <= i < |plans| => Statement(RenderBatch(plans[i]), NoScope))
  }

  /** All edges of a sequence of batch plans, in order. */
  function AllEdges(plans: seq<BatchPlan>): seq<Edge>
  {
    if plans == [] then [] else plans[0].edges + AllEdges(plans[1..])
  }

  /** The edge a triple becomes. */
  function EdgeOf(t: Triple, id2relation: map<int, string>): Edge
    requires t.relation in id2relation
  {
    Edge(t.subject, id2relation[t.relation], t.obj)
  }

  /**
   * Over all batches the statements create exactly one edge per triple, in
   * the triples' order, whatever the batch boundaries.
   */
  lemma {:induction false} BatchesCreateEveryEdge(ts: seq<Triple>, n: nat, id2relation: map<int, string>)
    requires n > 0
    requires forall t :: t in ts ==> t.relation in id2relation
    ensures var plans := PlanBatches(Batching.Batches(ts, n), id2relation);
            && |AllEdges(plans)| == |ts|
            && forall i :: 0 <= i < |ts| ==> AllEdges(plans)[i] == EdgeOf(ts[i], id2relation)
    decreases |ts|
  {
    var bs := Batching.Batches(ts, n);
    var plans := PlanBatches(bs, id2relation);
    if |ts| > n {
      BatchesCreateEveryEdge(ts[n..], n, id2relation);
      var rest := Batching.Batches(ts[n..], n);
      var restPlans := PlanBatches(rest, id2relation);
      assert bs == [ts[..n]] + rest;
      assert plans[1..] == restPlans;
      var head := plans[0].edges;
      assert plans[0] == PlanBatch(ts[..n], id2relation);
      assert AllEdges(plans) == head + AllEdges(restPlans);
      forall i | 0 <= i < |ts| ensures AllEdges(plans)[i] == EdgeOf(ts[i], id2relation) {
        if i >= n {
          assert AllEdges(plans)[i] == AllEdges(restPlans)[i - n];
          assert ts[i] == ts[n..][i - n];
        } else {
          assert AllEdges(plans)[i] == head[i];
          assert ts[i] == ts[..n][i];
        }
      }
    } else if |ts| > 0 {
      assert bs == [ts];
      assert plans[1..] == [];
    }
  }

  // ---------------------------------------------------------------------------
  // Schema and nodes

  const NodeTableText := "CREATE NODE TABLE " + NodeClass + "(id INT, label STRING, PRIMARY KEY (id))"
  const LoadNodesText := "LOAD FROM nodes CREATE (n:" + NodeClass + " {id: id, label: label});"

  function RelTableText(slugify: string -> string, relation: string): string
  {
    "CREATE REL TABLE " + LabelToClassOrRelation(slugify, relation) + "(FROM " + NodeClass + " TO " + NodeClass + ");"
  }

  function RelTableStatements(relation2id: seq<(string, int)>, slugify: string -> string): (r: seq<Statement>)
    ensures |r| == |relation2id|
  {
    seq(|relation2id|, i requires 0 <= i < |relation2id| => Statement(RelTableText(slugify, relation2id[i].0), NoScope))
  }

  /** No item after the `i`-th carries the same id, so the `i`-th binding is the one a dict comprehension keeps. */
  predicate LastWithId(items: seq<(string, int)>, i: nat)
    requires i < |items|
  {
    forall j :: i < j < |items| ==> items[j].1 != items[i].1
  }

  /** `{id: label_to_class_or_relation(relation) for relation, id in relation2id.items()}`. */
  function Id2Relation(relation2id: seq<(string, int)>, slugify: string -> string): (m: map<int, string>)
    ensures m.Keys == RelationIds(relation2id)
    ensures forall i :: 0 <= i < |relation2id| && LastWithId(relation2id, i) ==>
              m[relation2id[i].1] == LabelToClassOrRelation(slugify, relation2id[i].0)
  {
    if relation2id == [] then map[]
    else
      var last := relation2id[|relation2id| - 1];
      var init := relation2id[..|relation2id| - 1];
      assert relation2id == init + [last];
      Id2Relation(init, slugify)[last.1 := LabelToClassOrRelation(slugify, last.0)]
  }

  function NodeRow(entity: (string, int)): Dict
  {
    Dict(["label", "id"], map["label" := Str(entity.0), "id" := Int(entity.1)])
  }

  /** `pd.DataFrame(list(entity2id.items()), columns=["label", "id"])`. */
  function NodesFrame(entity2id: seq<(string, int)>): Frame
  {
    Frame(["label", "id"], seq(|entity2id|, i requires 0 <= i < |entity2id| => NodeRow(entity2id[i])))
  }

  /** The ids in the `id` column of the (sampled) node rows. */
  function RetainedIds(rows: seq<Dict>): set<int>
  {
    set d | d in rows && Get(d, "id").Int? :: Get(d, "id").i
  }

  /** `sampling_count or sampling_ratio` (truthiness): whether triples are filtered. */
  predicate FilterRequested(d: Dataset)
  {
    (d.samplingCount.Some? && d.samplingCount.value != 0) || (d.samplingRatio.Some? && d.samplingRatio.value != 0.0)
  }

  /** On a valid dataset row the two sampling tests agree. */
  lemma SamplingTestsAgree(d: Dataset)
    requires ValidDataset(d)
    ensures SamplingRequested(d) == FilterRequested(d)
  {
  }

  /** The sampler's arguments: a random order of the entity rows and the rounded fraction size. */
  predicate SamplerInputs(d: Dataset, kg: KgData, perm: seq<nat>, fracSize: nat)
  {
    && Sampling.IsPermutation(perm, |kg.entity2id|)
    && (d.samplingRatio.Some? && 0.0 <= d.samplingRatio.value <= 1.0 ==> fracSize <= |kg.entity2id|)
  }

  /** The node rows after the optional sampling step, or why sampling refused. */
  function SampledNodes(d: Dataset, kg: KgData, perm: seq<nat>, fracSize: nat): Result<Frame, IngestError>
    requires SamplerInputs(d, kg, perm, fracSize)
  {
    var nodes := NodesFrame(kg.entity2id);
    if !SamplingRequested(d) then Success(nodes)
    else match Sampling.Sample(nodes.rows, d.samplingCount, d.samplingRatio, perm, fracSize)
      case Failure(_) => Failure(SampleRejected)
      case Success(rows) => Success(Frame(nodes.columns, rows))
  }

  /** The training triples that are created, after the optional filter. */
  function TriplesToCreate(d: Dataset, kg: KgData, nodes: Frame): seq<Triple>
    requires WellFormed(kg)
  {
    var all := Zip(kg.subjects, kg.relations, kg.objects);
    if FilterRequested(d) then Kept(all, RetainedIds(nodes.rows)) else all
  }

  lemma TriplesToCreateRelations(d: Dataset, kg: KgData, nodes: Frame)
    requires WellFormed(kg)
    ensures forall t :: t in TriplesToCreate(d, kg, nodes) ==> t.relation in RelationIds(kg.relation2id)
  {
    var all := Zip(kg.subjects, kg.relations, kg.objects);
    KeptMembership(all, RetainedIds(nodes.rows));
    forall t | t in all ensures t.relation in RelationIds(kg.relation2id) {
      var i :| 0 <= i < |all| && all[i] == t;
    }
  }

  /**
   * `instanciate_dataset_in_kuzu` for a DGL-KE specification: the statements
   * it issues, in order, and how it ends. `pathIsDir` stands for the check
   * that the database path is already a directory.
   */
  function Plan(d: Dataset, spec: DglkeDatasetSpecifications, kg: KgData, slugify: string -> string,
                perm: seq<nat>, fracSize: nat, pathIsDir: bool): (r: Run)
    requires WellFormed(kg) && SamplerInputs(d, kg, perm, fracSize)
    ensures r.statements == [] <==> pathIsDir || spec.initialDataset != KGDatasetFB15k
    ensures r.status == Done ==> !pathIsDir && spec.initialDataset == KGDatasetFB15k
  {
    if pathIsDir then Run([], Aborted(TargetAlreadyExists))
    else if spec.initialDataset != KGDatasetFB15k then Run([], Aborted(UnknownInitialDataset))
    else PlanFB15k(d, kg, slugify, perm, fracSize)
  }

  /** The FB15k branch: node table, optional sampling, node load, relation tables, edges. */
  function PlanFB15k(d: Dataset, kg: KgData, slugify: string -> string, perm: seq<nat>, fracSize: nat): Run
    requires WellFormed(kg) && SamplerInputs(d, kg, perm, fracSize)
  {
    var create := Statement(NodeTableText, NoScope);
    match SampledNodes(d, kg, perm, fracSize)
    case Failure(e) => Run([create], Aborted(e))
    case Success(nodes) => Run([create] + AfterSampling(d, kg, nodes, slugify), Done)
  }

  /** What follows a successful sampling step: the node load, the relation tables, the edges. */
  function AfterSampling(d: Dataset, kg: KgData, nodes: Frame, slugify: string -> string): seq<Statement>
    requires WellFormed(kg)
  {
    [Statement(LoadNodesText, Bound("nodes", nodes))] + RelTableStatements(kg.relation2id, slugify)
      + EdgeStatements(d, kg, nodes, slugify)
  }

  /** The MATCH ... CREATE statements, one per batch of the triples to create. */
  function EdgeStatements(d: Dataset, kg: KgData, nodes: Frame, slugify: string -> string): seq<Statement>
    requires WellFormed(kg)
  {
    TriplesToCreateRelations(d, kg, nodes);
    BatchStatements(PlanBatches(Batching.Batches(TriplesToCreate(d, kg, nodes), BatchSize), Id2Relation(kg.relation2id, slugify)))
  }

  /** The loop over `relation2id.keys()` creating one relation table per label. */
  method CreateRelTables(conn: Connection, relation2id: seq<(string, int)>, slugify: string -> string)
    modifies conn
    ensures conn.log == old(conn.log) + RelTableStatements(relation2id, slugify)
  {
    ghost var rels := RelTableStatements(relation2id, slugify);
    for i := 0 to |relation2id|
      invariant conn.log == old(conn.log) + rels[..i]
    {
      conn.Execute(RelTableText(slugify, relation2id[i].0), NoScope);
      TakeSnoc(rels, i);
      AppendAssoc(old(conn.log), rels[..i], [rels[i]]);
    }
    TakeAll(rels);
  }

  /** The loop over the batches issuing one MATCH ... CREATE statement each. */
  method CreateEdges(conn: Connection, bs: seq<seq<Triple>>, id2relation: map<int, string>)
    requires forall b, t :: b in bs && t in b ==> t.relation in id2relation
    modifies conn
    ensures conn.log == old(conn.log) + BatchStatements(PlanBatches(bs, id2relation))
  {
    ghost var plans := PlanBatches(bs, id2relation);
    ghost var stmts := BatchStatements(plans);
    for i := 0 to |bs|
      invariant conn.log == old(conn.log) + stmts[..i]
    {
      assert bs[i] in bs;
      var text := RenderBatch(PlanBatch(bs[i], id2relation));
      assert stmts[i] == Statement(text, NoScope);
      conn.Execute(text, NoScope);
      TakeSnoc(stmts, i);
      AppendAssoc(old(conn.log), stmts[..i], [stmts[i]]);
    }
    TakeAll(stmts);
  }

  /** Filters the triples when sampling was asked for, batches them and creates the edges. */
  method CreateTripleEdges(conn: Connection, d: Dataset, kg: KgData, nodes: Frame, slugify: string -> string)
    requires WellFormed(kg)
    modifies conn
    ensures conn.log == old(conn.log) + EdgeStatements(d, kg, nodes, slugify)
  {
    var id2relation := Id2Relation(kg.relation2id, slugify);
    var s, r, o := kg.subjects, kg.relations, kg.objects;
    if FilterRequested(d) {
      s, r, o := FilterTriples(s, r, o, RetainedIds(nodes.rows));
    }
    assert Zip(s, r, o) == TriplesToCreate(d, kg, nodes);
    TriplesToCreateRelations(d, kg, nodes);
    var batches := Batching.Batch(Zip(s, r, o), BatchSize);
    CreateEdges(conn, batches.value, id2relation);
  }

  /** Loads the sampled nodes, then creates the relation tables and the edges. */
  method LoadAndConnect(conn: Connection, d: Dataset, kg: KgData, nodes: Frame, slugify: string -> string)
    requires WellFormed(kg)
    modifies conn
    ensures conn.log == old(conn.log) + AfterSampling(d, kg, nodes, slugify)
  {
    ghost var log0 := conn.log;
    var load := Statement(LoadNodesText, Bound("nodes", nodes));
    conn.Execute(LoadNodesText, Bound("nodes", nodes));
    CreateRelTables(conn, kg.relation2id, slugify);
    ghost var rels := RelTableStatements(kg.relation2id, slugify);
    AppendAssoc(log0, [load], rels);
    CreateTripleEdges(conn, d, kg, nodes, slugify);
    AppendAssoc(log0, [load] + rels, EdgeStatements(d, kg, nodes, slugify));
  }

  /** The FB15k branch of the loader. */
  method InstantiateFB15k(conn: Connection, d: Dataset, kg: KgData, slugify: string -> string,
                          perm: seq<nat>, fracSize: nat)
    returns (status: Status)
    requires WellFormed(kg) && SamplerInputs(d, kg, perm, fracSize)
    modifies conn
    ensures var run := PlanFB15k(d, kg, slugify, perm, fracSize);
            conn.log == old(conn.log) + run.statements && status == run.status
  {
    conn.Execute(NodeTableText, NoScope);
    var sampled := SampledNodes(d, kg, perm, fracSize);
    if sampled.Failure? {
      return Aborted(sampled.error);
    }
    LoadAndConnect(conn, d, kg, sampled.value, slugify);
    AppendAssoc(old(conn.log), [Statement(NodeTableText, NoScope)], AfterSampling(d, kg, sampled.value, slugify));
    return Done;
  }

  /** The loader itself, executing against `conn` what `Plan` describes. */
  method Instantiate(conn: Connection, d: Dataset, spec: DglkeDatasetSpecifications, kg: KgData,
                     slugify: string -> string, perm: seq<nat>, fracSize: nat, pathIsDir: bool)
    returns (status: Status)
    requires WellFormed(kg) && SamplerInputs(d, kg, perm, fracSize)
    modifies conn
    ensures var run := Plan(d, spec, kg, slugify, perm, fracSize, pathIsDir);
            conn.log == old(conn.log) + run.statements && status == run.status
  {
    if pathIsDir {
      return Aborted(TargetAlreadyExists);
    }
    if spec.initialDataset != KGDatasetFB15k {
      return Aborted(UnknownInitialDataset);
    }
    status := InstantiateFB15k(conn, d, kg, slugify, perm, fracSize);
  }

  // ---------------------------------------------------------------------------
  // Properties of the whole run

  /** Only the node-table statement begins `CREATE NODE`. */
  lemma NodeTableTextIsUnique(slugify: string -> string, relation: string, p: BatchPlan)
    ensures NodeTableText[7] == 'N' && NodeTableText[..7] == "CREATE "
    ensures RelTableText(slugify, relation)[7] == 'R'
    ensures LoadNodesText[0] == 'L' && RenderBatch(p)[0] == 'M'
  {
    var rel := RelTableText(slugify, relation);
    assert rel == "CREATE REL TABLE " + (LabelToClassOrRelation(slugify, relation) + "(FROM " + NodeClass + " TO " + NodeClass + ");");
  }

  /**
   * Without sampling the node rows are every entity; with count sampling
   * they are `count` rows of the entity frame, each used at most once, or the
   * sampler refuses a count above the number of entities.
   */
  lemma SampledNodesFacts(d: Dataset, kg: KgData, perm: seq<nat>, fracSize: nat)
    requires SamplerInputs(d, kg, perm, fracSize)
    ensures var all := NodesFrame(kg.entity2id);
            var r := SampledNodes(d, kg, perm, fracSize);
            && (!SamplingRequested(d) ==> r == Success(all))
            && (r.Success? ==> r.value.columns == ["label", "id"] && multiset(r.value.rows) <= multiset(all.rows))
            && (d.samplingRatio.None? && d.samplingCount.Some? && d.samplingCount.value >= 0 ==>
                  (r.Success? <==> d.samplingCount.value <= |kg.entity2id|)
                  && (r.Success? ==> |r.value.rows| == d.samplingCount.value))
            && (r.Failure? ==> r.error == SampleRejected)
  {
    var all := NodesFrame(kg.entity2id);
    if SamplingRequested(d) {
      Sampling.SampleIsSubBag(all.rows, d.samplingCount, d.samplingRatio, perm, fracSize);
      if d.samplingRatio.None? && d.samplingCount.Some? && d.samplingCount.value >= 0 {
        Sampling.SampleByCount(all.rows, d.samplingCount.value, perm);
      }
    }
  }

  /**
   * The triples that become edges: with a sampling filter, exactly the
   * training triples with a retained subject or object, in their original
   * order; without one, every training triple.
   */
  lemma TriplesToCreateFacts(d: Dataset, kg: KgData, nodes: Frame)
    requires WellFormed(kg)
    ensures var all := Zip(kg.subjects, kg.relations, kg.objects);
            var keep := RetainedIds(nodes.rows);
            && (!FilterRequested(d) ==> TriplesToCreate(d, kg, nodes) == all)
            && (FilterRequested(d) ==> forall t :: t in TriplesToCreate(d, kg, nodes) <==>
                                         t in all && (t.subject in keep || t.obj in keep))
  {
    KeptMembership(Zip(kg.subjects, kg.relations, kg.objects), RetainedIds(nodes.rows));
  }

  /**
   * How a run ends: it completes exactly when the path is free, the dataset
   * is FB15k and the sampler accepts its arguments. An aborted run issued
   * nothing, or (when the sampler refused) only the node table.
   */
  lemma PlanOutcome(d: Dataset, spec: DglkeDatasetSpecifications, kg: KgData,
                    slugify: string -> string, perm: seq<nat>, fracSize: nat, pathIsDir: bool)
    requires WellFormed(kg) && SamplerInputs(d, kg, perm, fracSize)
    ensures var run := Plan(d, spec, kg, slugify, perm, fracSize, pathIsDir);
            && (run.status == Done <==>
                  !pathIsDir && spec.initialDataset == KGDatasetFB15k && SampledNodes(d, kg, perm, fracSize).Success?)
            && (pathIsDir ==> run.statements == [])
            && (run.status.Aborted? ==>
                  || run.statements == []
                  || (run.statements == [Statement(NodeTableText, NoScope)] && run.status.error == SampleRejected))
            && (run.status == Done ==>
                  run.statements == [Statement(NodeTableText, NoScope)]
                                    + AfterSampling(d, kg, SampledNodes(d, kg, perm, fracSize).value, slugify))
  {
    SampledNodesFacts(d, kg, perm, fracSize);
  }

  /** None of the statements is the node-table statement. */
  predicate NoNodeTable(sts: seq<Statement>)
  {
    forall i :: 0 <= i < |sts| ==> sts[i].text != NodeTableText
  }

  lemma NoNodeTableConcat(a: seq<Statement>, b: seq<Statement>)
    requires NoNodeTable(a) && NoNodeTable(b)
    ensures NoNodeTable(a + b)
  {
    forall i | 0 <= i < |a + b| ensures (a + b)[i].text != NodeTableText {
      if i >= |a| { assert (a + b)[i] == b[i - |a|]; }
    }
  }

  /** Every MATCH ... CREATE statement begins with `M`, so none is the node table. */
  lemma EdgeStatementsText(d: Dataset, kg: KgData, nodes: Frame, slugify: string -> string)
    requires WellFormed(kg)
    ensures var e := EdgeStatements(d, kg, nodes, slugify);
            && |e| == |Batching.Batches(TriplesToCreate(d, kg, nodes), BatchSize)|
            && (forall i :: 0 <= i < |e| ==> e[i].text[0] == 'M')
            && NoNodeTable(e)
  {
    TriplesToCreateRelations(d, kg, nodes);
    var plans := PlanBatches(Batching.Batches(TriplesToCreate(d, kg, nodes), BatchSize), Id2Relation(kg.relation2id, slugify));
    var e := BatchStatements(plans);
    forall i | 0 <= i < |e| ensures e[i].text[0] == 'M' && e[i].text != NodeTableText {
      NodeTableTextIsUnique(slugify, "", plans[i]);
    }
  }

  /** No relation-table statement is the node table. */
  lemma RelTableStatementsText(rels: seq<(string, int)>, slugify: string -> string)
    ensures NoNodeTable(RelTableStatements(rels, slugify))
  {
    var r := RelTableStatements(rels, slugify);
    forall i | 0 <= i < |r| ensures r[i].text != NodeTableText {
      NodeTableTextIsUnique(slugify, rels[i].0, BatchPlan([], []));
    }
  }

  lemma AfterSamplingLayout(d: Dataset, kg: KgData, nodes: Frame, slugify: string -> string)
    requires WellFormed(kg)
    ensures [Statement(NodeTableText, NoScope)] + AfterSampling(d, kg, nodes, slugify)
         == [Statement(NodeTableText, NoScope), Statement(LoadNodesText, Bound("nodes", nodes))]
            + RelTableStatements(kg.relation2id, slugify) + EdgeStatements(d, kg, nodes, slugify)
  {
    var create, load := Statement(NodeTableText, NoScope), Statement(LoadNodesText, Bound("nodes", nodes));
    var relSt := RelTableStatements(kg.relation2id, slugify);
    var edgeSt := EdgeStatements(d, kg, nodes, slugify);
    AppendAssoc([create], [load] + relSt, edgeSt);
    AppendAssoc([create], [load], relSt);
    Pair(create, load);
  }

  /**
   * The statements of a completed run: the node table, the node load, one
   * relation table per relation label in order, then one MATCH ... CREATE
   * statement per batch of 50 triples to create.
   */
  lemma CompletedStatements(d: Dataset, kg: KgData, nodes: Frame, slugify: string -> string)
    requires WellFormed(kg)
    ensures var st := [Statement(NodeTableText, NoScope)] + AfterSampling(d, kg, nodes, slugify);
            && |st| == 2 + |kg.relation2id| + |Batching.Batches(TriplesToCreate(d, kg, nodes), BatchSize)|
            && st == [Statement(NodeTableText, NoScope), Statement(LoadNodesText, Bound("nodes", nodes))]
                     + RelTableStatements(kg.relation2id, slugify) + EdgeStatements(d, kg, nodes, slugify)
  {
    AfterSamplingLayout(d, kg, nodes, slugify);
    EdgeStatementsText(d, kg, nodes, slugify);
  }

  /** In a completed run the node table is created once: no later statement is the node table. */
  lemma NodeTableCreatedOnce(d: Dataset, kg: KgData, nodes: Frame, slugify: string -> string)
    requires WellFormed(kg)
    ensures var st := [Statement(NodeTableText, NoScope)] + AfterSampling(d, kg, nodes, slugify);
            st[0].text == NodeTableText && NoNodeTable(st[1..])
  {
    var load := Statement(LoadNodesText, Bound("nodes", nodes));
    var relSt := RelTableStatements(kg.relation2id, slugify);
    var edgeSt := EdgeStatements(d, kg, nodes, slugify);
    EdgeStatementsText(d, kg, nodes, slugify);
    RelTableStatementsText(kg.relation2id, slugify);
    NodeTableTextIsUnique(slugify, "", BatchPlan([], []));
    assert NoNodeTable([load]);
    NoNodeTableConcat([load], relSt);
    NoNodeTableConcat([load] + relSt, edgeSt);
  }

  /**
   * The edges the completed run's statements create: one per triple to
   * create, in order, carrying the normalised relation name, with both
   * endpoints bound by the MATCH of its batch.
   */
  lemma CreatedEdges(d: Dataset, kg: KgData, nodes: Frame, slugify: string -> string)
    requires WellFormed(kg)
    ensures forall t :: t in TriplesToCreate(d, kg, nodes) ==> t.relation in Id2Relation(kg.relation2id, slugify)
    ensures var ts := TriplesToCreate(d, kg, nodes);
            var id2relation := Id2Relation(kg.relation2id, slugify);
            var plans := PlanBatches(Batching.Batches(ts, BatchSize), id2relation);
            && |AllEdges(plans)| == |ts|
            && (forall i :: 0 <= i < |ts| ==> AllEdges(plans)[i] == EdgeOf(ts[i], id2relation))
  {
    TriplesToCreateRelations(d, kg, nodes);
    BatchesCreateEveryEdge(TriplesToCreate(d, kg, nodes), BatchSize, Id2Relation(kg.relation2id, slugify));
  }
}
