/** `CategoriesService` over the categories table: a `create` that builds an
    entity without saving it, the search and sort options of `findAll`, a
    `findOne` that reports an absent id, and an `update` and `remove` that do
    not look for the row first. */
module Categories {
  import opened Common
  import opened Query

  /** A category as the repository builds or stores it; `id` is absent until
      the entity is saved. */
  datatype Category = Category(id: Option<int>, name: string, description: Option<string>)

  datatype CreateCategoryDto = CreateCategoryDto(name: string, description: Option<string>)

  /** `PartialType(CreateCategoryDto)`: every column optional. */
  datatype UpdateCategoryDto = UpdateCategoryDto(name: Option<string>, description: Option<Option<string>>)

  /** The query after the validation pipe has applied its defaults. */
  datatype FindAllCategoriesDto = FindAllCategoriesDto(search: Option<string>, sortBy: Option<string>, sortOrder: SortOrder, limit: int, offset: int)

  /** `repository.update(id, dto)` on one row: the given columns change, the others stay. */
  function ApplyUpdate(c: Category, dto: UpdateCategoryDto): (r: Category)
    ensures r.id == c.id
    ensures r.name == dto.name.GetOr(c.name)
    ensures r.description == dto.description.GetOr(c.description)
  {
    Category(c.id, dto.name.GetOr(c.name), dto.description.GetOr(c.description))
  }

  class CategoriesService {
    var categories: map<int, Category>

    ghost predicate Valid()
      reads this
    {
      forall id :: id in categories ==> categories[id].id == Some(id)
    }

    constructor ()
      ensures Valid() && categories == map[]
    {
      categories := map[];
    }

    /** `create`: `repository.create(dto)` only builds the entity; nothing is
        saved, so it has no id and the table stays as it was. */
    method Create(dto: CreateCategoryDto) returns (category: Category)
      ensures category.id.None?
      ensures category.name == dto.name && category.description == dto.description
    {
      category := Category(None, dto.name, dto.description);
    }

    /** `findAll`'s options: a search makes `where` a one-element disjunction
        matching the name, no search drops `where`; sort by the requested
        column or newest first; page by `limit` and `offset`. */
    method FindAll(query: FindAllCategoriesDto) returns (options: FindOptions)
      ensures options.take == query.limit && options.skip == query.offset
      ensures options.order == SortOrderFor(query.sortBy, query.sortOrder)
      ensures TruthyText(query.search) ==>
        options.where == Some(AnyOf([map["name" := Like(Contains(query.search.value))]]))
      ensures !TruthyText(query.search) ==> options.where.None?
    {
      options := InitialOptions(query.limit, query.offset);
      if query.search.Some? && query.search.value != "" {
        options := options.(where := Some(AnyOf([map["name" := Like(Contains(query.search.value))]])));
      }
      if query.sortBy.Some? && query.sortBy.value != "" {
        options := options.(order := options.order[query.sortBy.value := query.sortOrder]);
      } else {
        options := options.(order := map["createdAt" := Desc]);
      }
      options := DropEmptyWhere(options);
    }

    /** `findOne`: NotFound for an absent id, the stored category otherwise. */
    method FindOne(id: int) returns (r: Outcome<Category>)
      requires Valid()
      ensures id !in categories <==> r == NotFound
      ensures r.Ok? ==> r.value.id == Some(id) && r.value == categories[id]
      ensures r.Ok? || r.NotFound?
    {
      if id !in categories {
        return NotFound;
      }
      r := Ok(categories[id]);
    }

    /** `update`: no existence check; an absent id leaves the table as it was. */
    method Update(id: int, dto: UpdateCategoryDto)
      requires Valid()
      modifies this
      ensures Valid()
      ensures id !in old(categories) ==> categories == old(categories)
      ensures id in old(categories) ==> categories == old(categories)[id := ApplyUpdate(old(categories)[id], dto)]
    {
      if id in categories {
        categories := categories[id := ApplyUpdate(categories[id], dto)];
      }
    }

    /** `remove`: no existence check; an absent id leaves the table as it was. */
    method Remove(id: int)
      requires Valid()
      modifies this
      ensures Valid()
      ensures categories == old(categories) - {id}
    {
      categories := categories - {id};
    }
  }
}
