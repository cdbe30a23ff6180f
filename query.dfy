/** The `FindManyOptions` the services hand to their repositories, kept as
    data: a `where` that is absent, one condition object or a list of
    condition objects (a disjunction), an `order` object, `take` and `skip`.
    The operators `Like`, `Between`, `MoreThanOrEqual` and `LessThanOrEqual`
    stay uninterpreted; nothing here evaluates a query. */
module Query {
  import opened Common
  import Ability

  datatype SortOrder = Asc | Desc

  /** The value a condition object gives one column. */
  datatype Constraint =
    | EqualsNumber(n: int)
    | EqualsText(text: string)
    | Like(pattern: string)
    | Between(low: int, high: int)
    | MoreThanOrEqual(low: int)
    | LessThanOrEqual(high: int)
    | EqualsRole(role: Ability.Role)

  /** One condition object: its columns must all match. */
  type Condition = map<string, Constraint>

  datatype Where = Single(condition: Condition) | AnyOf(conditions: seq<Condition>)

  datatype FindOptions = FindOptions(where: Option<Where>, order: map<string, SortOrder>, take: int, skip: int)

  /** `{ where: {}, order: {}, take: limit, skip: offset }`, where the builders start. */
  function InitialOptions(limit: int, offset: int): FindOptions {
    FindOptions(Some(Single(map[])), map[], limit, offset)
  }

  /** The pattern of `Like(`%${search}%`)`. */
  function Contains(search: string): string {
    "%" + search + "%"
  }

  /** The condition objects of a `where`, in order; none when it is absent. */
  function Disjuncts(where: Option<Where>): seq<Condition> {
    match where
    case None => []
    case Some(Single(c)) => [c]
    case Some(AnyOf(cs)) => cs
  }

  /** `where.map(c => ({ ...c, field: value }))` on a list, or
      `{ ...where, field: value }` on a single object: every condition object
      gains the column and keeps its other columns. */
  function Conjoin(where: Where, field: string, value: Constraint): (r: Where)
    ensures r.Single? <==> where.Single?
    ensures |Disjuncts(Some(r))| == |Disjuncts(Some(where))|
    ensures forall i :: 0 <= i < |Disjuncts(Some(r))| ==>
      Disjuncts(Some(r))[i] == Disjuncts(Some(where))[i][field := value]
  {
    match where
    case Single(c) => Single(c[field := value])
    case AnyOf(cs) => AnyOf(seq(|cs|, i requires 0 <= i < |cs| => cs[i][field := value]))
  }

  /** The `whereIsEmpty` test: an empty list or an object without keys. */
  predicate WhereIsEmpty(where: Where): (empty: bool)
    ensures empty <==> (where.Single? && where.condition == map[]) || (where.AnyOf? && where.conditions == [])
  {
    match where
    case Single(c) => |c| == 0
    case AnyOf(cs) => |cs| == 0
  }

  /** `delete findOptions.where` when it is empty. */
  function DropEmptyWhere(options: FindOptions): (r: FindOptions)
    ensures r.order == options.order && r.take == options.take && r.skip == options.skip
    ensures r.where.Some? ==> r.where == options.where && !WhereIsEmpty(r.where.value)
    ensures options.where.Some? && !WhereIsEmpty(options.where.value) ==> r.where == options.where
  {
    if options.where.Some? && WhereIsEmpty(options.where.value) then options.(where := None) else options
  }

  /** `{ [sortBy]: sortOrder }` when `sortBy` is given, `{ createdAt: 'DESC' }` otherwise. */
  function SortOrderFor(sortBy: Option<string>, sortOrder: SortOrder): (order: map<string, SortOrder>)
    ensures TruthyText(sortBy) ==> order == map[sortBy.value := sortOrder]
    ensures !TruthyText(sortBy) ==> order == map["createdAt" := Desc]
  {
    if sortBy.Some? && sortBy.value != "" then map[sortBy.value := sortOrder] else map["createdAt" := Desc]
  }

  /** Conjoining a column never leaves a `where` empty, so a filter that is
      applied is never dropped afterwards. */
  lemma ConjoinedIsNotEmpty(where: Where, field: string, value: Constraint)
    requires where.Single? || |where.conditions| > 0
    ensures !WhereIsEmpty(Conjoin(where, field, value))
  {
    if where.Single? {
      assert field in Conjoin(where, field, value).condition;
    } else {
      assert |Disjuncts(Some(Conjoin(where, field, value)))| > 0;
    }
  }
}
