/** `ProductsService` over the products table: the filter, sort and paging
    options of `findAll`, a `findOne` that reports an absent id, and an
    `update` and `remove` that do not look for the row first. */
module Products {
  import opened Common
  import opened Query

  /** A row of the products table; prices are kept in integral units and
      images, SKU and rating columns are not modelled. */
  datatype Product = Product(id: int, name: string, description: string, price: int, stockQuantity: int, categoryId: int, isActive: bool)

  datatype CreateProductDto = CreateProductDto(name: string, description: string, price: int, stockQuantity: int, isActive: Option<bool>, categoryId: int)

  /** `PartialType(CreateProductDto)`: every column optional. */
  datatype UpdateProductDto = UpdateProductDto(
    name: Option<string>, description: Option<string>, price: Option<int>,
    stockQuantity: Option<int>, isActive: Option<bool>, categoryId: Option<int>)

  /** The query after the validation pipe has applied its defaults. */
  datatype FindAllProductsDto = FindAllProductsDto(
    search: Option<string>, categoryId: Option<int>, minPrice: Option<int>, maxPrice: Option<int>,
    sortBy: Option<string>, sortOrder: SortOrder, limit: int, offset: int)

  /** The price column's constraint: a bound counts whenever it is given,
      0 included. */
  function PriceFilter(minPrice: Option<int>, maxPrice: Option<int>): (r: Option<Constraint>)
    ensures r.Some? <==> minPrice.Some? || maxPrice.Some?
    ensures minPrice.Some? && maxPrice.Some? ==> r == Some(Between(minPrice.value, maxPrice.value))
    ensures minPrice.Some? && maxPrice.None? ==> r == Some(MoreThanOrEqual(minPrice.value))
    ensures minPrice.None? && maxPrice.Some? ==> r == Some(LessThanOrEqual(maxPrice.value))
  {
    if minPrice.Some? && maxPrice.Some? then Some(Between(minPrice.value, maxPrice.value))
    else if minPrice.Some? then Some(MoreThanOrEqual(minPrice.value))
    else if maxPrice.Some? then Some(LessThanOrEqual(maxPrice.value))
    else None
  }

  /** A condition object of a search: it matches `column` against the
      search pattern and does not mention the other searched column. */
  predicate SearchesColumn(c: Condition, column: string, other: string, search: string) {
    column in c && c[column] == Like(Contains(search)) && other !in c
  }

  /** A condition object carries the category filter exactly when the
      category is truthy and the price constraint exactly when a bound is given. */
  predicate CarriesFilters(c: Condition, query: FindAllProductsDto) {
    && (TruthyNumber(query.categoryId) ==> "categoryId" in c && c["categoryId"] == EqualsNumber(query.categoryId.value))
    && (!TruthyNumber(query.categoryId) ==> "categoryId" !in c)
    && (PriceFilter(query.minPrice, query.maxPrice).Some? ==>
          "price" in c && c["price"] == PriceFilter(query.minPrice, query.maxPrice).value)
    && (PriceFilter(query.minPrice, query.maxPrice).None? ==> "price" !in c)
  }

  /** The three stages of the `where` built by `findAll`, from the search
      alone, through the category, to the price: each stage adds its column
      to every condition object and keeps the rest. */
  lemma FiltersApplied(query: FindAllProductsDto, searched: Where, categorised: Where, priced: Where)
    requires searched == (if TruthyText(query.search)
      then AnyOf([map["name" := Like(Contains(query.search.value))], map["description" := Like(Contains(query.search.value))]])
      else Single(map[]))
    requires categorised == (if TruthyNumber(query.categoryId)
      then Conjoin(searched, "categoryId", EqualsNumber(query.categoryId.value)) else searched)
    requires priced == (if PriceFilter(query.minPrice, query.maxPrice).Some?
      then Conjoin(categorised, "price", PriceFilter(query.minPrice, query.maxPrice).value) else categorised)
    ensures TruthyText(query.search) ==>
      && priced.AnyOf? && |Disjuncts(Some(priced))| == 2
      && SearchesColumn(Disjuncts(Some(priced))[0], "name", "description", query.search.value)
      && SearchesColumn(Disjuncts(Some(priced))[1], "description", "name", query.search.value)
    ensures !TruthyText(query.search) ==>
      priced.Single? && "name" !in priced.condition && "description" !in priced.condition
    ensures WhereIsEmpty(priced) <==>
      !TruthyText(query.search) && !TruthyNumber(query.categoryId) && PriceFilter(query.minPrice, query.maxPrice).None?
    ensures forall c :: c in Disjuncts(Some(priced)) ==> CarriesFilters(c, query)
    ensures forall c :: c in Disjuncts(Some(priced)) ==> c.Keys <= {"name", "description", "categoryId", "price"}
  {
    var d, e := Disjuncts(Some(searched)), Disjuncts(Some(priced));
    assert |e| == |d|;
    forall i | 0 <= i < |e|
      ensures CarriesFilters(e[i], query)
      ensures forall column :: column != "categoryId" && column != "price" ==>
        (column in e[i] <==> column in d[i]) && (column in d[i] ==> e[i][column] == d[i][column])
    {
    }
    if !TruthyText(query.search) && (TruthyNumber(query.categoryId) || PriceFilter(query.minPrice, query.maxPrice).Some?) {
      assert e[0] == priced.condition;
      assert TruthyNumber(query.categoryId) ==> "categoryId" in priced.condition;
    }
  }

  /** `repository.update(id, dto)` on one row: the given columns change, the others stay. */
  function ApplyUpdate(p: Product, dto: UpdateProductDto): (r: Product)
    ensures r.id == p.id
    ensures r.name == dto.name.GetOr(p.name) && r.description == dto.description.GetOr(p.description)
    ensures r.price == dto.price.GetOr(p.price) && r.stockQuantity == dto.stockQuantity.GetOr(p.stockQuantity)
    ensures r.isActive == dto.isActive.GetOr(p.isActive) && r.categoryId == dto.categoryId.GetOr(p.categoryId)
  {
    Product(p.id, dto.name.GetOr(p.name), dto.description.GetOr(p.description), dto.price.GetOr(p.price),
      dto.stockQuantity.GetOr(p.stockQuantity), dto.categoryId.GetOr(p.categoryId), dto.isActive.GetOr(p.isActive))
  }

  class ProductsService {
    var products: map<int, Product>

    ghost predicate Valid()
      reads this
    {
      forall id :: id in products ==> products[id].id == id
    }

    constructor ()
      ensures Valid() && products == map[]
    {
      products := map[];
    }

    /** `create`: the DTO is saved, active unless it says otherwise; `newId`
        is the key the database assigns. */
    method Create(dto: CreateProductDto, newId: int) returns (product: Product)
      requires Valid() && newId !in products
      modifies this
      ensures Valid()
      ensures product == Product(newId, dto.name, dto.description, dto.price, dto.stockQuantity, dto.categoryId, dto.isActive.GetOr(true))
      ensures products == old(products)[newId := product]
    {
      product := Product(newId, dto.name, dto.description, dto.price, dto.stockQuantity, dto.categoryId, dto.isActive.GetOr(true));
      products := products[newId := product];
    }

    /** `findAll`'s options. A search makes `where` a disjunction of a name
        match and a description match; a truthy category and the price
        constraint are added to every condition object; with no filter at
        all, `where` is dropped. */
    method FindAll(query: FindAllProductsDto) returns (options: FindOptions)
      ensures options.take == query.limit && options.skip == query.offset
      ensures options.order == SortOrderFor(query.sortBy, query.sortOrder)
      ensures TruthyText(query.search) ==>
        && options.where.Some? && options.where.value.AnyOf?
        && |Disjuncts(options.where)| == 2
        && SearchesColumn(Disjuncts(options.where)[0], "name", "description", query.search.value)
        && SearchesColumn(Disjuncts(options.where)[1], "description", "name", query.search.value)
      ensures !TruthyText(query.search) ==>
        |Disjuncts(options.where)| <= 1 &&
        forall c :: c in Disjuncts(options.where) ==> "name" !in c && "description" !in c
      ensures options.where.None? <==>
        !TruthyText(query.search) && !TruthyNumber(query.categoryId) && PriceFilter(query.minPrice, query.maxPrice).None?
      ensures !TruthyText(query.search) && options.where.Some? ==> options.where.value.Single?
      ensures forall c :: c in Disjuncts(options.where) ==> CarriesFilters(c, query)
      ensures forall c :: c in Disjuncts(options.where) ==> c.Keys <= {"name", "description", "categoryId", "price"}
    {
      options := InitialOptions(query.limit, query.offset);
      var where := options.where.value;
      if query.search.Some? && query.search.value != "" {
        var pattern := Contains(query.search.value);
        where := AnyOf([map["name" := Like(pattern)], map["description" := Like(pattern)]]);
      }
      ghost var searched := where;
      if query.categoryId.Some? && query.categoryId.value != 0 {
        where := Conjoin(where, "categoryId", EqualsNumber(query.categoryId.value));
      }
      ghost var categorised := where;
      if query.minPrice.Some? && query.maxPrice.Some? {
        where := Conjoin(where, "price", Between(query.minPrice.value, query.maxPrice.value));
      } else if query.minPrice.Some? {
        where := Conjoin(where, "price", MoreThanOrEqual(query.minPrice.value));
      } else if query.maxPrice.Some? {
        where := Conjoin(where, "price", LessThanOrEqual(query.maxPrice.value));
      }
      FiltersApplied(query, searched, categorised, where);
      options := options.(where := Some(where));
      assert Disjuncts(options.where) == Disjuncts(Some(where));
      if query.sortBy.Some? && query.sortBy.value != "" {
        options := options.(order := options.order[query.sortBy.value := query.sortOrder]);
      } else {
        options := options.(order := map["createdAt" := Desc]);
      }
      options := DropEmptyWhere(options);
    }

    /** `findOne`: NotFound for an absent id, the stored product otherwise. */
    method FindOne(id: int) returns (r: Outcome<Product>)
      ensures id !in products ==> r == NotFound
      ensures id in products ==> r == Ok(products[id])
    {
      if id !in products {
        return NotFound;
      }
      r := Ok(products[id]);
    }

    /** `update`: no existence check; an absent id leaves the table as it was. */
    method Update(id: int, dto: UpdateProductDto)
      requires Valid()
      modifies this
      ensures Valid()
      ensures id !in old(products) ==> products == old(products)
      ensures id in old(products) ==> products == old(products)[id := ApplyUpdate(old(products)[id], dto)]
    {
      if id in products {
        products := products[id := ApplyUpdate(products[id], dto)];
      }
    }

    /** `remove`: no existence check; an absent id leaves the table as it was. */
    method Remove(id: int)
      requires Valid()
      modifies this
      ensures Valid()
      ensures products == old(products) - {id}
    {
      products := products - {id};
    }
  }
}
