/**
 * The Delivery record of the tracking database and the batched query that
 * fetches every Version linked to it (python/app/consolidator.py, class Delivery).
 */
module Delivery {
  import opened Wrappers

  /** A link to another record, as it appears inside a multi-entity field: only its id is read. */
  datatype EntityLink = EntityLink(id: int)

  /**
   * The two fields the consolidator requests for a Delivery. A field the
   * record lacks, or holds as null, reads as `None` (Python's `dict.get`).
   */
  datatype DeliveryData = DeliveryData(sgVersions: Option<seq<EntityLink>>, sgDeliveryType: Option<string>)
  {
    /** The delivery category that drives settings selection (`Delivery.type`). */
    function Type(): Option<string> {
      sgDeliveryType
    }
  }

  /** One filter clause `[field, relation, value]` of the tracking-database query language. */
  datatype Clause = Clause(field: string, relation: string, value: int)

  /** A filter group `{"filter_operator": op, "filters": [...]}`. */
  datatype FilterGroup = FilterGroup(filterOperator: string, filters: seq<Clause>)

  /** The arguments of one `find` call: entity type, filter list and requested fields. */
  datatype Query = Query(entityType: string, filters: seq<FilterGroup>, fields: seq<string>)

  const VersionEntity := "Version"
  const AnyOperator := "any"
  const PathToFramesField := "sg_path_to_frames"

  /** The ids of the linked records, in link order. */
  function LinkIds(links: seq<EntityLink>): (ids: seq<int>)
    ensures |ids| == |links|
    ensures forall i :: 0 <= i < |links| ==> ids[i] == links[i].id
  {
    seq(|links|, i requires 0 <= i < |links| => links[i].id)
  }

  /** True when the delivery has no linked version to look up: the field is absent, null or empty. */
  predicate HasNoVersions(d: DeliveryData) {
    d.sgVersions.None? || d.sgVersions.value == []
  }

  /** The `["id", "is", id]` clauses built one per link, appended in link order. */
  function VersionClauses(links: seq<EntityLink>): (cs: seq<Clause>)
    ensures |cs| == |links|
    ensures forall i :: 0 <= i < |cs| ==> cs[i] == Clause("id", "is", links[i].id)
    ensures ClauseIds(cs) == LinkIds(links)
  {
    if links == [] then []
    else VersionClauses(links[..|links| - 1]) + [Clause("id", "is", links[|links| - 1].id)]
  }

  /** The values the clauses compare against, in clause order. */
  function ClauseIds(cs: seq<Clause>): (ids: seq<int>)
    ensures |ids| == |cs|
    ensures forall i :: 0 <= i < |cs| ==> ids[i] == cs[i].value
  {
    if cs == [] then [] else [cs[0].value] + ClauseIds(cs[1..])
  }

  /**
   * The filter `get_versions` hands to `find`, or `None` when it returns
   * the empty list without querying.
   */
  function VersionsQuery(d: DeliveryData): (q: Option<Query>)
    ensures q.None? <==> HasNoVersions(d)
    ensures q.Some? ==> IsIdAnyQuery(q.value) && q.value.entityType == VersionEntity
    ensures q.Some? ==> q.value.fields == [PathToFramesField]
    ensures q.Some? ==> QueriedIds(q.value) == LinkIds(d.sgVersions.value)
  {
    if HasNoVersions(d) then None
    else Some(Query(VersionEntity, [FilterGroup(AnyOperator, VersionClauses(d.sgVersions.value))], [PathToFramesField]))
  }

  /** A query whose filter is one `any` group made only of `id is` clauses. */
  predicate IsIdAnyQuery(q: Query) {
    && |q.filters| == 1
    && q.filters[0].filterOperator == AnyOperator
    && forall c :: c in q.filters[0].filters ==> c.field == "id" && c.relation == "is"
  }

  /** The ids an `id is` / `any` query asks for, in clause order. */
  function QueriedIds(q: Query): seq<int>
    requires IsIdAnyQuery(q)
  {
    ClauseIds(q.filters[0].filters)
  }

  /** Whether a record with the given id satisfies an `id is` / `any` query. */
  predicate Selects(q: Query, id: int)
    requires IsIdAnyQuery(q)
  {
    exists c :: c in q.filters[0].filters && c.value == id
  }

  /**
   * The versions linked to a delivery: `[]` when there is nothing to query,
   * otherwise what `find` returns for the batched filter.
   */
  function GetVersions<Row>(d: DeliveryData, find: Query -> seq<Row>): (rows: seq<Row>)
    ensures HasNoVersions(d) ==> rows == []
    ensures !HasNoVersions(d) ==> exists q :: VersionsQuery(d) == Some(q) && rows == find(q)
  {
    match VersionsQuery(d)
    case None => []
    case Some(q) => find(q)
  }

  /**
   * The batched query selects exactly the linked versions: a record id
   * matches the filter if and only if some link of the delivery carries it.
   */
  lemma QuerySelectsExactlyLinked(d: DeliveryData, id: int)
    requires !HasNoVersions(d)
    ensures VersionsQuery(d).Some?
    ensures Selects(VersionsQuery(d).value, id) <==> exists l :: l in d.sgVersions.value && l.id == id
  {
  }

  /** With no linked versions the result does not depend on the database at all. */
  lemma NoVersionsNoQuery<Row>(d: DeliveryData, find1: Query -> seq<Row>, find2: Query -> seq<Row>)
    requires HasNoVersions(d)
    ensures GetVersions(d, find1) == GetVersions(d, find2) == []
  {
  }
}
