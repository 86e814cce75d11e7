/**
  The mutation resolvers of the data map: the review of tentatively discovered
  properties (ReviewProperties), the optional-field updates of data sources, silo
  specifications and properties, and the start of a source-detection job.

  The relational store is a `Database` object whose fields are its tables: maps from
  id to row for the entity tables and sets of (owner id, target id) pairs for the join
  tables. Each resolver is a method on it. A failing database statement is chosen by a
  fault parameter naming the statement that fails; everything the resolver wrote before
  it stays written unless the resolver runs in a transaction.
*/
module DataMapping {
  import opened Wrappers

  type PropertyId = string
  type CategoryId = string
  type PurposeId = string
  type DataSourceId = string
  type SiloDefinitionId = string
  type SiloSpecificationId = string
  type WorkspaceId = string
  type JobId = string

  // ---------------------------------------------------------------------------
  // Rows
  // ---------------------------------------------------------------------------

  /** The pending-review state of a discovered property; no value (nil) means committed. */
  datatype TentativeStatus = Created | Deleted

  datatype Property = Property(id: PropertyId, dataSourceId: DataSourceId, tentative: Option<TentativeStatus>)

  datatype DataSource = DataSource(
    id: DataSourceId,
    siloDefinitionId: SiloDefinitionId,
    description: Option<string>,
    schema: string)

  datatype SiloSpecification = SiloSpecification(
    id: SiloSpecificationId,
    name: string,
    logoUrl: Option<string>,
    workspaceId: Option<WorkspaceId>,
    dockerImage: string,
    schema: Option<string>)

  datatype SiloDefinition = SiloDefinition(
    id: SiloDefinitionId,
    workspaceId: WorkspaceId,
    siloSpecificationId: SiloSpecificationId)

  datatype JobType = DiscoverSources | HandleRequest
  datatype JobStatus = Queued | Running | Succeeded | Failed

  datatype Job = Job(id: JobId, workspaceId: WorkspaceId, jobType: JobType, status: JobStatus, resourceId: string)

  /** The task queue and workflow a resolver hands to the workflow engine. */
  datatype TaskQueue = DockerRunnerQueue
  datatype WorkflowName = DetectDSWorkflow

  datatype StartWorkflowOptions = StartWorkflowOptions(id: string, taskQueue: TaskQueue)

  /** One request to the workflow engine: options, workflow and its arguments. */
  datatype WorkflowStart = WorkflowStart(
    options: StartWorkflowOptions,
    workflow: WorkflowName,
    jobId: JobId,
    silo: SiloDefinition)

  // ---------------------------------------------------------------------------
  // Inputs, errors, faults
  // ---------------------------------------------------------------------------

  datatype ReviewResult = Approve | Reject

  datatype ReviewPropertiesInput = ReviewPropertiesInput(propertyIds: seq<PropertyId>, reviewResult: ReviewResult)

  datatype UpdateDataSourceInput = UpdateDataSourceInput(
    id: DataSourceId,
    description: Option<string>,
    schema: Option<string>)

  datatype UpdateSiloSpecificationInput = UpdateSiloSpecificationInput(
    id: SiloSpecificationId,
    dockerImage: Option<string>,
    name: Option<string>,
    logoUrl: Option<string>,
    schema: Option<string>)

  /** A None id list is a nil slice (leave the association alone); Some([]) clears it. */
  datatype UpdatePropertyInput = UpdatePropertyInput(
    id: PropertyId,
    purposeIds: Option<seq<PurposeId>>,
    categoryIds: Option<seq<CategoryId>>)

  /** A user-visible error carrying the resolver's message, or the workflow engine's own error. */
  datatype Error = Error(message: string) | WorkflowStartError

  datatype Result<T> = Ok(value: T) | Err(error: Error)

  /** The statement of ReviewProperties that fails, if any. */
  datatype ReviewFault = ReviewOk | FindPropertiesFails | ClearTentativeFails | UnlinkCategoriesFails | DeletePropertiesFails

  /** The statement of UpdateDataSource or UpdateSiloSpecification that fails, if any. */
  datatype RowFault = RowOk | FirstFails | SaveFails

  /** The statement of UpdateProperty that fails, if any (a statement that does not run cannot fail). */
  datatype PropertyFault =
    | PropertyOk
    | FirstPropertyFails
    | FindPurposesFails
    | ReplacePurposesFails
    | FindCategoriesFails
    | ReplaceCategoriesFails
    | SavePropertyFails

  /** The step of DetectSiloSources that fails, if any. */
  datatype DetectFault = DetectOk | FindSiloFails | CreateJobFails | StartWorkflowFails

  // ---------------------------------------------------------------------------
  // The review table
  // ---------------------------------------------------------------------------

  /** What a review does to one property. */
  datatype Action = Keep | ClearFlag | Remove

  /**
    The review transition table: a committed property is left alone; approving a
    creation or rejecting a deletion commits the property; rejecting a creation or
    approving a deletion removes it.
  */
  function Decide(tentative: Option<TentativeStatus>, result: ReviewResult): (a: Action)
    ensures a == Keep <==> tentative.None?
    ensures a == ClearFlag <==> tentative == Some(if result == Approve then Created else Deleted)
    ensures a == Remove <==> tentative == Some(if result == Approve then Deleted else Created)
  {
    match tentative
    case None => Keep
    case Some(Created) => if result == Approve then ClearFlag else Remove
    case Some(Deleted) => if result == Approve then Remove else ClearFlag
  }

  /** The ids of the rows the review gives `action`, in row order. */
  function Selected(rows: seq<Property>, result: ReviewResult, action: Action): seq<PropertyId>
    decreases |rows|
  {
    if rows == [] then []
    else
      var last := rows[|rows| - 1];
      Selected(rows[..|rows| - 1], result, action) + (if Decide(last.tentative, result) == action then [last.id] else [])
  }

  function Ids(rows: seq<Property>): (ids: seq<PropertyId>)
    ensures |ids| == |rows| && forall i :: 0 <= i < |rows| ==> ids[i] == rows[i].id
  {
    seq(|rows|, i requires 0 <= i < |rows| => rows[i].id)
  }

  /** The rows the review commits, each with its flag cleared, in row order: what ReviewProperties returns. */
  function Reviewed(rows: seq<Property>, result: ReviewResult): (res: seq<Property>)
    ensures Ids(res) == Selected(rows, result, ClearFlag)
    ensures forall k :: 0 <= k < |res| ==> res[k].tentative.None?
    decreases |rows|
  {
    if rows == [] then []
    else
      var last := rows[|rows| - 1];
      Reviewed(rows[..|rows| - 1], result) + (if Decide(last.tentative, result) == ClearFlag then [last.(tentative := None)] else [])
  }

  /** Each returned property is one of the rows, committed by the table, with its flag cleared. */
  lemma {:induction false} ReviewedOrigin(rows: seq<Property>, result: ReviewResult, k: nat)
    requires k < |Reviewed(rows, result)|
    ensures exists j :: 0 <= j < |rows| && Reviewed(rows, result)[k] == rows[j].(tentative := None)
                        && Decide(rows[j].tentative, result) == ClearFlag
    decreases |rows|
  {
    var init := rows[..|rows| - 1];
    var prev := Reviewed(init, result);
    if k < |prev| {
      ReviewedOrigin(init, result, k);
      var j :| 0 <= j < |init| && prev[k] == init[j].(tentative := None) && Decide(init[j].tentative, result) == ClearFlag;
      assert init[j] == rows[j];
    } else {
      assert Reviewed(rows, result)[k] == rows[|rows| - 1].(tentative := None);
    }
  }

  predicate Distinct<T(==)>(s: seq<T>) {
    forall i, j :: 0 <= i < j < |s| ==> s[i] != s[j]
  }

  /** xs is ys with some elements left out: the order of what remains is kept. */
  predicate IsSubsequence<T(==)>(xs: seq<T>, ys: seq<T>)
    decreases |ys|
  {
    if ys == [] then xs == []
    else
      || (xs != [] && xs[|xs| - 1] == ys[|ys| - 1] && IsSubsequence(xs[..|xs| - 1], ys[..|ys| - 1]))
      || IsSubsequence(xs, ys[..|ys| - 1])
  }

  /** An id is selected for an action exactly when some row with that id gets that action. */
  lemma {:induction false} SelectedMembership(rows: seq<Property>, result: ReviewResult, action: Action, id: PropertyId)
    ensures id in Selected(rows, result, action) <==>
              exists j :: 0 <= j < |rows| && rows[j].id == id && Decide(rows[j].tentative, result) == action
    decreases |rows|
  {
    if rows != [] {
      var init := rows[..|rows| - 1];
      SelectedMembership(init, result, action, id);
      assert forall j :: 0 <= j < |init| ==> init[j] == rows[j];
      if (exists j :: 0 <= j < |rows| && rows[j].id == id && Decide(rows[j].tentative, result) == action) {
        var j :| 0 <= j < |rows| && rows[j].id == id && Decide(rows[j].tentative, result) == action;
        if j < |init| {
          assert init[j] == rows[j];
        }
      }
    }
  }

  /** With distinct ids, a row's id is in an action's list exactly when the table gives the row that action. */
  lemma RowSelection(rows: seq<Property>, result: ReviewResult, action: Action, i: nat)
    requires Distinct(Ids(rows))
    requires i < |rows|
    ensures rows[i].id in Selected(rows, result, action) <==> Decide(rows[i].tentative, result) == action
  {
    SelectedMembership(rows, result, action, rows[i].id);
  }

  /** With distinct ids, no property is both deleted and committed. */
  lemma SelectedDisjoint(rows: seq<Property>, result: ReviewResult)
    requires Distinct(Ids(rows))
    ensures forall id :: id in Selected(rows, result, Remove) ==> id !in Selected(rows, result, ClearFlag)
  {
    forall id | id in Selected(rows, result, Remove)
      ensures id !in Selected(rows, result, ClearFlag)
    {
      SelectedMembership(rows, result, Remove, id);
      SelectedMembership(rows, result, ClearFlag, id);
    }
  }

  /** Each action's list keeps the order of the rows. */
  lemma {:induction false} SelectedInOrder(rows: seq<Property>, result: ReviewResult, action: Action)
    ensures IsSubsequence(Selected(rows, result, action), Ids(rows))
    decreases |rows|
  {
    if rows != [] {
      var init := rows[..|rows| - 1];
      var xs, ys := Selected(rows, result, action), Ids(rows);
      SelectedInOrder(init, result, action);
      assert ys[..|ys| - 1] == Ids(init);
      if Decide(rows[|rows| - 1].tentative, result) == action {
        assert xs[..|xs| - 1] == Selected(init, result, action);
        assert xs[|xs| - 1] == ys[|ys| - 1];
      } else {
        assert xs == Selected(init, result, action);
      }
    }
  }

  /** One CREATED and one DELETED property, approved and then rejected: each result commits one and deletes the other. */
  lemma ReviewExamples(p1: Property, p2: Property)
    requires p1.tentative == Some(Created) && p2.tentative == Some(Deleted)
    ensures Selected([p1, p2], Approve, ClearFlag) == [p1.id] && Selected([p1, p2], Approve, Remove) == [p2.id]
    ensures Selected([p1, p2], Reject, ClearFlag) == [p2.id] && Selected([p1, p2], Reject, Remove) == [p1.id]
  {
    assert [p1, p2][..1] == [p1];
    assert [p1][..0] == [];
    forall a: Action, rr: ReviewResult
      ensures Selected([p1], rr, a) == (if Decide(p1.tentative, rr) == a then [p1.id] else [])
      ensures Selected([p1, p2], rr, a) == Selected([p1], rr, a) + (if Decide(p2.tentative, rr) == a then [p2.id] else [])
    {
    }
  }

  // ---------------------------------------------------------------------------
  // Where("id IN ?", ids).Find(&rows)
  // ---------------------------------------------------------------------------

  /** The rows whose id is among ids, each once, in the order of its first mention. */
  function Find(props: map<PropertyId, Property>, ids: seq<PropertyId>): (rows: seq<Property>)
    ensures |rows| <= |ids|
    decreases |ids|
  {
    if ids == [] then []
    else
      var id := ids[|ids| - 1];
      var init := ids[..|ids| - 1];
      Find(props, init) + (if id in props && id !in init then [props[id]] else [])
  }

  /** Every row found is the stored row of one of the requested ids. */
  lemma {:induction false} FindOrigin(props: map<PropertyId, Property>, ids: seq<PropertyId>, k: nat)
    requires k < |Find(props, ids)|
    ensures exists i :: 0 <= i < |ids| && ids[i] in props && Find(props, ids)[k] == props[ids[i]]
    decreases |ids|
  {
    var init := ids[..|ids| - 1];
    if k < |Find(props, init)| {
      FindOrigin(props, init, k);
      var i :| 0 <= i < |init| && init[i] in props && Find(props, init)[k] == props[init[i]];
      assert ids[i] == init[i];
    } else {
      assert Find(props, ids)[k] == props[ids[|ids| - 1]];
    }
  }

  /** The rows of a table are keyed by their own id. */
  predicate KeyedById(props: map<PropertyId, Property>) {
    forall id :: id in props ==> props[id].id == id
  }

  /** Every requested id names a distinct existing property. */
  predicate AllFound(props: map<PropertyId, Property>, ids: seq<PropertyId>) {
    Distinct(ids) && forall i :: 0 <= i < |ids| ==> ids[i] in props
  }

  /**
    The count check of ReviewProperties: as many rows as requested ids exactly when the
    ids are distinct and all exist, and then the rows are the requested ones in order.
  */
  lemma {:induction false} FindCount(props: map<PropertyId, Property>, ids: seq<PropertyId>)
    ensures |Find(props, ids)| <= |ids|
    ensures |Find(props, ids)| == |ids| <==> AllFound(props, ids)
    ensures |Find(props, ids)| == |ids| ==> forall i :: 0 <= i < |ids| ==> Find(props, ids)[i] == props[ids[i]]
    decreases |ids|
  {
    if ids != [] {
      var id := ids[|ids| - 1];
      var init := ids[..|ids| - 1];
      FindCount(props, init);
      assert forall i :: 0 <= i < |init| ==> init[i] == ids[i];
      if id in init {
        var j :| 0 <= j < |init| && init[j] == id;
        assert ids[j] == ids[|ids| - 1];
      }
    }
  }

  /** The rows found for a request that passes the count check, classified, in terms of the requested ids. */
  lemma FoundSelection(props: map<PropertyId, Property>, ids: seq<PropertyId>, result: ReviewResult, action: Action, id: PropertyId)
    requires KeyedById(props) && AllFound(props, ids)
    ensures id in Selected(Find(props, ids), result, action) <==>
              id in ids && id in props && Decide(props[id].tentative, result) == action
  {
    var rows := Find(props, ids);
    FindCount(props, ids);
    SelectedMembership(rows, result, action, id);
    if id in ids && id in props && Decide(props[id].tentative, result) == action {
      var j :| 0 <= j < |ids| && ids[j] == id;
      assert rows[j].id == id;
    }
  }

  /** The rows found for a request that passes the count check have distinct ids and are the stored rows. */
  lemma FoundRows(props: map<PropertyId, Property>, ids: seq<PropertyId>)
    requires KeyedById(props) && AllFound(props, ids)
    ensures Distinct(Ids(Find(props, ids)))
    ensures forall k :: 0 <= k < |Find(props, ids)| ==> Find(props, ids)[k].id in props && props[Find(props, ids)[k].id] == Find(props, ids)[k]
  {
    FindCount(props, ids);
  }

  // ---------------------------------------------------------------------------
  // The classification loop of ReviewProperties
  // ---------------------------------------------------------------------------

  /**
    The loop of ReviewProperties over the found rows: the ids to delete, the ids whose
    flag to clear, and the committed rows to return, each in row order.
  */
  method Classify(rows: seq<Property>, result: ReviewResult)
      returns (delProps: seq<PropertyId>, updateProps: seq<PropertyId>, resProps: seq<Property>)
    ensures delProps == Selected(rows, result, Remove)
    ensures updateProps == Selected(rows, result, ClearFlag)
    ensures resProps == Reviewed(rows, result)
  {
    delProps, updateProps, resProps := [], [], [];
    for i := 0 to |rows|
      invariant delProps == Selected(rows[..i], result, Remove)
      invariant updateProps == Selected(rows[..i], result, ClearFlag)
      invariant resProps == Reviewed(rows[..i], result)
    {
      var p := rows[i];
      assert rows[..i + 1][..i] == rows[..i];
      if p.tentative.None? {
        continue;
      }
      match p.tentative.value {
        case Created =>
          if result == Approve {
            p := p.(tentative := None);
            updateProps := updateProps + [p.id];
            resProps := resProps + [p];
          } else {
            delProps := delProps + [p.id];
          }
        case Deleted =>
          if result == Approve {
            delProps := delProps + [p.id];
          } else {
            p := p.(tentative := None);
            updateProps := updateProps + [p.id];
            resProps := resProps + [p];
          }
      }
    }
    assert rows[..|rows|] == rows;
  }

  // ---------------------------------------------------------------------------
  // Association replacement
  // ---------------------------------------------------------------------------

  /** The targets an owner is linked to in a join table. */
  function LinkedTo(links: set<(string, string)>, owner: string): set<string> {
    set l | l in links && l.0 == owner :: l.1
  }

  /** Association("...").Replace(targets) for one owner. */
  function ReplaceLinks(links: set<(string, string)>, owner: string, targets: set<string>): (r: set<(string, string)>)
    ensures LinkedTo(r, owner) == targets
    ensures forall other :: other != owner ==> LinkedTo(r, other) == LinkedTo(links, other)
  {
    var r := (set l | l in links && l.0 != owner) + (set t | t in targets :: (owner, t));
    assert forall t :: t in targets ==> (owner, t) in r;
    r
  }

  /** Where("id IN ?", ids).Find: the ids that name existing rows; the others are silently dropped. */
  function Existing(ids: seq<string>, table: set<string>): (found: set<string>)
    ensures found <= table
    ensures forall i :: 0 <= i < |ids| && ids[i] in table ==> ids[i] in found
    ensures forall t :: t in found ==> t in ids
  {
    set t | t in ids && t in table
  }

  // ---------------------------------------------------------------------------
  // The store and the resolvers
  // ---------------------------------------------------------------------------

  predicate PurposeStepFails(input: UpdatePropertyInput, fault: PropertyFault) {
    input.purposeIds.Some? && fault in {FindPurposesFails, ReplacePurposesFails}
  }

  predicate CategoryStepFails(input: UpdatePropertyInput, fault: PropertyFault) {
    input.categoryIds.Some? && fault in {FindCategoriesFails, ReplaceCategoriesFails}
  }

  /** A property the review deletes. */
  predicate Removed(props: map<PropertyId, Property>, input: ReviewPropertiesInput, id: PropertyId) {
    id in input.propertyIds && id in props && Decide(props[id].tentative, input.reviewResult) == Remove
  }

  /** A property the review commits. */
  predicate Cleared(props: map<PropertyId, Property>, input: ReviewPropertiesInput, id: PropertyId) {
    id in input.propertyIds && id in props && Decide(props[id].tentative, input.reviewResult) == ClearFlag
  }

  class Database {
    var properties: map<PropertyId, Property>
    var propertyCategories: set<(PropertyId, CategoryId)>
    var propertyPurposes: set<(PropertyId, PurposeId)>
    var categories: set<CategoryId>
    var purposes: set<PurposeId>
    var dataSources: map<DataSourceId, DataSource>
    var siloSpecifications: map<SiloSpecificationId, SiloSpecification>
    var siloDefinitions: map<SiloDefinitionId, SiloDefinition>
    var jobs: map<JobId, Job>
    /** The workflows started on the workflow engine, oldest first. */
    var startedWorkflows: seq<WorkflowStart>

    /** An empty store. */
    constructor ()
      ensures Valid()
      ensures properties == map[] && propertyCategories == {} && propertyPurposes == {}
      ensures categories == {} && purposes == {}
      ensures dataSources == map[] && siloSpecifications == map[] && siloDefinitions == map[]
      ensures jobs == map[] && startedWorkflows == []
    {
      properties, propertyCategories, propertyPurposes := map[], {}, {};
      categories, purposes := {}, {};
      dataSources, siloSpecifications, siloDefinitions := map[], map[], map[];
      jobs, startedWorkflows := map[], [];
    }

    /** Every row is stored under its own id. */
    ghost predicate Valid()
      reads this
    {
      && KeyedById(properties)
      && (forall id :: id in dataSources ==> dataSources[id].id == id)
      && (forall id :: id in siloSpecifications ==> siloSpecifications[id].id == id)
      && (forall id :: id in siloDefinitions ==> siloDefinitions[id].id == id)
      && (forall id :: id in jobs ==> jobs[id].id == id)
    }

    /**
      ReviewProperties: finds the requested properties, fails unless every id names a
      distinct property, classifies them by the review table, then in one transaction
      clears the flag of the committed ones and deletes the removed ones with their
      category links. A failing statement rolls the whole transaction back.
    */
    method ReviewProperties(input: ReviewPropertiesInput, fault: ReviewFault) returns (r: Result<seq<Property>>)
      requires Valid()
      modifies this`properties, this`propertyCategories
      ensures Valid()
      ensures r.Err? ==> properties == old(properties) && propertyCategories == old(propertyCategories)
      ensures (fault == FindPropertiesFails || !AllFound(old(properties), input.propertyIds)) ==>
                r == Err(Error("Could not find properties."))
      ensures fault in {ClearTentativeFails, UnlinkCategoriesFails, DeletePropertiesFails} && AllFound(old(properties), input.propertyIds) ==>
                r == Err(Error("Error updating properties."))
      ensures r.Ok? <==> fault == ReviewOk && AllFound(old(properties), input.propertyIds)
      ensures r.Ok? ==> r.value == Reviewed(Find(old(properties), input.propertyIds), input.reviewResult)
      ensures r.Ok? ==> forall id :: id in properties <==> id in old(properties) && !Removed(old(properties), input, id)
      ensures r.Ok? ==> forall id :: id in properties ==>
                properties[id] == if Cleared(old(properties), input, id) then old(properties)[id].(tentative := None) else old(properties)[id]
      ensures r.Ok? ==> forall pc :: pc in propertyCategories <==> pc in old(propertyCategories) && !Removed(old(properties), input, pc.0)
      ensures r.Ok? ==> forall k :: 0 <= k < |r.value| ==>
                r.value[k].tentative.None? && r.value[k].id in properties && properties[r.value[k].id] == r.value[k]
    {
      if fault == FindPropertiesFails {
        return Err(Error("Could not find properties."));
      }
      var rows := Find(properties, input.propertyIds);
      FindCount(properties, input.propertyIds);
      if |rows| != |input.propertyIds| {
        return Err(Error("Could not find properties."));
      }
      FoundRows(properties, input.propertyIds);
      var delProps, updateProps, resProps := Classify(rows, input.reviewResult);
      ghost var props0 := properties;
      forall id
        ensures (id in delProps <==> Removed(props0, input, id)) && (id in updateProps <==> Cleared(props0, input, id))
      {
        FoundSelection(props0, input.propertyIds, input.reviewResult, Remove, id);
        FoundSelection(props0, input.propertyIds, input.reviewResult, ClearFlag, id);
      }
      var committed := CommitReview(delProps, updateProps, fault);
      if !committed {
        return Err(Error("Error updating properties."));
      }
      r := Ok(resProps);
      ReviewedAreStored(props0, input, properties);
    }

    /**
      The transaction of ReviewProperties: clear the flag of `updateProps`, delete the
      category links of `delProps`, delete `delProps`. A failing statement restores what
      the earlier statements wrote, so the store is as before.
    */
    method CommitReview(delProps: seq<PropertyId>, updateProps: seq<PropertyId>, fault: ReviewFault) returns (committed: bool)
      requires Valid()
      modifies this`properties, this`propertyCategories
      ensures Valid()
      ensures committed <==> fault !in {ClearTentativeFails, UnlinkCategoriesFails, DeletePropertiesFails}
      ensures !committed ==> properties == old(properties) && propertyCategories == old(propertyCategories)
      ensures committed ==> forall id :: id in properties <==> id in old(properties) && id !in delProps
      ensures committed ==> forall id :: id in properties ==>
                properties[id] == if id in updateProps then old(properties)[id].(tentative := None) else old(properties)[id]
      ensures committed ==> forall pc :: pc in propertyCategories <==> pc in old(propertyCategories) && pc.0 !in delProps
    {
      var savedProperties, savedCategories := properties, propertyCategories;
      if fault == ClearTentativeFails {
        properties, propertyCategories := savedProperties, savedCategories;
        return false;
      }
      properties := map id | id in properties :: if id in updateProps then properties[id].(tentative := None) else properties[id];
      if fault == UnlinkCategoriesFails {
        properties, propertyCategories := savedProperties, savedCategories;
        return false;
      }
      propertyCategories := set pc | pc in propertyCategories && pc.0 !in delProps;
      if fault == DeletePropertiesFails {
        properties, propertyCategories := savedProperties, savedCategories;
        return false;
      }
      properties := map id | id in properties && id !in delProps :: properties[id];
      committed := true;
    }

    /**
      UpdateDataSource: the description is always overwritten (an omitted one clears
      it); the schema is overwritten only when given.
    */
    method UpdateDataSource(input: UpdateDataSourceInput, fault: RowFault) returns (r: Result<DataSource>)
      requires Valid()
      modifies this`dataSources
      ensures Valid()
      ensures r.Err? ==> dataSources == old(dataSources)
      ensures (input.id !in old(dataSources) || fault == FirstFails) ==> r == Err(Error("Error finding data source."))
      ensures input.id in old(dataSources) && fault == SaveFails ==> r == Err(Error("Error updating data source."))
      ensures r.Ok? <==> input.id in old(dataSources) && fault == RowOk
      ensures r.Ok? ==> dataSources == old(dataSources)[input.id := r.value]
      ensures r.Ok? ==>
                var before := old(dataSources)[input.id];
                && r.value.id == before.id
                && r.value.siloDefinitionId == before.siloDefinitionId
                && r.value.description == input.description
                && r.value.schema == (if input.schema.Some? then input.schema.value else before.schema)
    {
      if input.id !in dataSources || fault == FirstFails {
        return Err(Error("Error finding data source."));
      }
      var dataSource := dataSources[input.id];
      dataSource := dataSource.(description := input.description);
      if input.schema.Some? {
        dataSource := dataSource.(schema := input.schema.value);
      }
      if fault == SaveFails {
        return Err(Error("Error updating data source."));
      }
      dataSources := dataSources[input.id := dataSource];
      r := Ok(dataSource);
    }

    /**
      UpdateSiloSpecification: the docker image and name change only when given; the
      logo URL and schema are always overwritten (omitting them clears them).
    */
    method UpdateSiloSpecification(input: UpdateSiloSpecificationInput, fault: RowFault) returns (r: Result<SiloSpecification>)
      requires Valid()
      modifies this`siloSpecifications
      ensures Valid()
      ensures r.Err? ==> siloSpecifications == old(siloSpecifications)
      ensures (input.id !in old(siloSpecifications) || fault == FirstFails) ==> r == Err(Error("Error finding silo specification."))
      ensures input.id in old(siloSpecifications) && fault == SaveFails ==> r == Err(Error("Error updating silo specification."))
      ensures r.Ok? <==> input.id in old(siloSpecifications) && fault == RowOk
      ensures r.Ok? ==> siloSpecifications == old(siloSpecifications)[input.id := r.value]
      ensures r.Ok? ==>
                var before := old(siloSpecifications)[input.id];
                && r.value.id == before.id
                && r.value.workspaceId == before.workspaceId
                && r.value.dockerImage == (if input.dockerImage.Some? then input.dockerImage.value else before.dockerImage)
                && r.value.name == (if input.name.Some? then input.name.value else before.name)
                && r.value.logoUrl == input.logoUrl
                && r.value.schema == input.schema
    {
      if input.id !in siloSpecifications || fault == FirstFails {
        return Err(Error("Error finding silo specification."));
      }
      var spec := siloSpecifications[input.id];
      if input.dockerImage.Some? {
        spec := spec.(dockerImage := input.dockerImage.value);
      }
      if input.name.Some? {
        spec := spec.(name := input.name.value);
      }
      spec := spec.(logoUrl := input.logoUrl);
      spec := spec.(schema := input.schema);
      if fault == SaveFails {
        return Err(Error("Error updating silo specification."));
      }
      siloSpecifications := siloSpecifications[input.id := spec];
      r := Ok(spec);
    }

    /**
      UpdateProperty: replaces the property's purposes, then its categories, each only
      when its id list is given, with the given ids that exist. There is no transaction:
      a later failure leaves an earlier replacement in place.
    */
    method UpdateProperty(input: UpdatePropertyInput, fault: PropertyFault) returns (r: Result<Property>)
      requires Valid()
      modifies this`properties, this`propertyPurposes, this`propertyCategories
      ensures Valid()
      ensures properties == old(properties)
      ensures (input.id !in old(properties) || fault == FirstPropertyFails) ==>
                r == Err(Error("Error finding property."))
                && propertyPurposes == old(propertyPurposes) && propertyCategories == old(propertyCategories)
      ensures input.id in old(properties) && fault != FirstPropertyFails ==>
                && propertyPurposes == (if input.purposeIds.Some? && !PurposeStepFails(input, fault)
                                        then ReplaceLinks(old(propertyPurposes), input.id, Existing(input.purposeIds.value, purposes))
                                        else old(propertyPurposes))
                && propertyCategories == (if !PurposeStepFails(input, fault) && input.categoryIds.Some? && !CategoryStepFails(input, fault)
                                          then ReplaceLinks(old(propertyCategories), input.id, Existing(input.categoryIds.value, categories))
                                          else old(propertyCategories))
      ensures r.Ok? <==> input.id in old(properties) && fault != FirstPropertyFails
                         && !PurposeStepFails(input, fault) && !CategoryStepFails(input, fault) && fault != SavePropertyFails
      ensures r.Ok? ==> r.value == old(properties)[input.id]
      ensures r.Err? && input.id in old(properties) && fault != FirstPropertyFails ==> r == Err(Error("Error updating property."))
    {
      if input.id !in properties || fault == FirstPropertyFails {
        return Err(Error("Error finding property."));
      }
      var property := properties[input.id];

      if input.purposeIds.Some? {
        if fault == FindPurposesFails {
          return Err(Error("Error updating property."));
        }
        var found := Existing(input.purposeIds.value, purposes);
        if fault == ReplacePurposesFails {
          return Err(Error("Error updating property."));
        }
        propertyPurposes := ReplaceLinks(propertyPurposes, property.id, found);
      }

      if input.categoryIds.Some? {
        if fault == FindCategoriesFails {
          return Err(Error("Error updating property."));
        }
        var found := Existing(input.categoryIds.value, categories);
        if fault == ReplaceCategoriesFails {
          return Err(Error("Error updating property."));
        }
        propertyCategories := ReplaceLinks(propertyCategories, property.id, found);
      }

      if fault == SavePropertyFails {
        return Err(Error("Error updating property."));
      }
      properties := properties[input.id := property];
      r := Ok(property);
    }

    /**
      DetectSiloSources: finds the workspace's silo definition, records a queued
      discovery job for it and starts the detection workflow under the job's id on the
      docker runner queue. The job stays recorded when the workflow fails to start.
      `jobId` is the fresh id uuid.NewString() returns.
    */
    method DetectSiloSources(workspaceId: WorkspaceId, id: SiloDefinitionId, jobId: JobId, fault: DetectFault) returns (r: Result<Job>)
      requires Valid()
      modifies this`jobs, this`startedWorkflows
      ensures Valid()
      ensures (id !in old(siloDefinitions) || old(siloDefinitions)[id].workspaceId != workspaceId || fault == FindSiloFails) ==>
                r == Err(Error("Error finding silo.")) && jobs == old(jobs) && startedWorkflows == old(startedWorkflows)
      ensures id in old(siloDefinitions) && old(siloDefinitions)[id].workspaceId == workspaceId && fault != FindSiloFails ==>
                if fault == CreateJobFails || jobId in old(jobs) then
                  r == Err(Error("Error creating dectect job.")) && jobs == old(jobs) && startedWorkflows == old(startedWorkflows)
                else
                  var job := Job(jobId, workspaceId, DiscoverSources, Queued, id);
                  && jobs == old(jobs)[jobId := job]
                  && (fault == StartWorkflowFails ==> r == Err(WorkflowStartError) && startedWorkflows == old(startedWorkflows))
                  && (fault != StartWorkflowFails ==>
                        && r == Ok(job)
                        && startedWorkflows == old(startedWorkflows) +
                             [WorkflowStart(StartWorkflowOptions(job.id, DockerRunnerQueue), DetectDSWorkflow, job.id, siloDefinitions[id])])
    {
      if id !in siloDefinitions || siloDefinitions[id].workspaceId != workspaceId || fault == FindSiloFails {
        return Err(Error("Error finding silo."));
      }
      var silo := siloDefinitions[id];
      var job := Job(jobId, workspaceId, DiscoverSources, Queued, id);
      if fault == CreateJobFails || job.id in jobs {
        return Err(Error("Error creating dectect job."));
      }
      jobs := jobs[job.id := job];
      var options := StartWorkflowOptions(job.id, DockerRunnerQueue);
      if fault == StartWorkflowFails {
        return Err(WorkflowStartError);
      }
      startedWorkflows := startedWorkflows + [WorkflowStart(options, DetectDSWorkflow, job.id, silo)];
      r := Ok(job);
    }
  }

  /** After a successful review commit, every returned property is stored exactly as returned. */
  lemma ReviewedAreStored(props: map<PropertyId, Property>, input: ReviewPropertiesInput, after: map<PropertyId, Property>)
    requires KeyedById(props) && AllFound(props, input.propertyIds)
    requires forall id :: id in after <==> id in props && !Removed(props, input, id)
    requires forall id :: id in after ==>
               after[id] == if Cleared(props, input, id) then props[id].(tentative := None) else props[id]
    ensures var res := Reviewed(Find(props, input.propertyIds), input.reviewResult);
            forall k :: 0 <= k < |res| ==> res[k].id in after && after[res[k].id] == res[k]
  {
    var rows := Find(props, input.propertyIds);
    var res := Reviewed(rows, input.reviewResult);
    FoundRows(props, input.propertyIds);
    forall k | 0 <= k < |res|
      ensures res[k].id in after && after[res[k].id] == res[k]
    {
      ReviewedOrigin(rows, input.reviewResult, k);
      var j :| 0 <= j < |rows| && res[k] == rows[j].(tentative := None) && Decide(rows[j].tentative, input.reviewResult) == ClearFlag;
      var id := rows[j].id;
      assert props[id] == rows[j];
      FoundSelection(props, input.propertyIds, input.reviewResult, ClearFlag, id);
      SelectedMembership(rows, input.reviewResult, ClearFlag, id);
      assert Cleared(props, input, id);
    }
  }
}
