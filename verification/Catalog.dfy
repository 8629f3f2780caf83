/** Catalog writes (apps/products/services.py) as their committed effect on the tables.
    Payload rows carry the uuid that is drawn for them. */
module Catalog {
  import opened Basics
  import opened Schema

  datatype ImageIn = ImageIn(id: Id, url: string, alt: string, position: int)
  datatype ChoiceIn = ChoiceIn(id: Id, value: string, hex: string, position: int)
  datatype GroupIn = GroupIn(id: Id, name: string, position: int, choices: seq<ChoiceIn>)
  datatype ProductIn = ProductIn(id: Id, categorySlug: string, name: string, description: string, price: int,
                                 featured: bool, visible: bool, images: seq<ImageIn>, groups: seq<GroupIn>)

  /** A field of a partial update: absent, explicitly null, or given. */
  datatype Field<T> = Unset | Null | Set(value: T)

  datatype Patch = Patch(categorySlug: Field<string>, name: Field<string>, description: Field<string>,
                         price: Field<int>, featured: Field<bool>, visible: Field<bool>)

  // ----- the ids a payload brings along -----

  function ImageIds(images: seq<ImageIn>): seq<Id> {
    seq(|images|, i requires 0 <= i < |images| => images[i].id)
  }

  function ChoiceIds(choices: seq<ChoiceIn>): seq<Id> {
    seq(|choices|, i requires 0 <= i < |choices| => choices[i].id)
  }

  function GroupRowIds(groups: seq<GroupIn>): seq<Id> {
    if groups == [] then [] else
      var last := groups[|groups| - 1];
      GroupRowIds(groups[..|groups| - 1]) + [last.id] + ChoiceIds(last.choices)
  }

  function RowIds(p: ProductIn): seq<Id> {
    [p.id] + ImageIds(p.images) + GroupRowIds(p.groups)
  }

  // ----- what the database refuses -----

  /** A value the column cannot represent is a data error; a negative one breaks the check constraint. */
  function ColumnFault(fits: bool, n: int): Option<Fault> {
    if !fits || n > MAX_INT then Some(DataError) else if n < 0 then Some(IntegrityError) else None
  }

  function ProductFault(t: Tables, store: Id, slug: string, p: ProductIn): Option<Fault> {
    match ColumnFault(|p.name| <= 255 && |slug| <= 255, p.price)
    case Some(fault) => Some(fault)
    case None => if SlugTaken(t.products, store, slug) || !Fresh(t, RowIds(p)) then Some(IntegrityError) else None
  }

  /** One INSERT for all images: a value too large anywhere is seen before any constraint. */
  function ImagesFault(images: seq<ImageIn>): Option<Fault> {
    if exists i :: 0 <= i < |images| && (|images[i].url| > 500 || |images[i].alt| > 255 || images[i].position > MAX_INT)
    then Some(DataError)
    else if exists i :: 0 <= i < |images| && images[i].position < 0 then Some(IntegrityError)
    else None
  }

  function ChoicesFault(choices: seq<ChoiceIn>): Option<Fault> {
    if exists i :: (0 <= i < |choices| &&
                    (|choices[i].value| > 100 || |choices[i].hex| > 7 || choices[i].position > MAX_INT))
    then Some(DataError)
    else if exists i :: 0 <= i < |choices| && choices[i].position < 0 then Some(IntegrityError)
    else if exists i, j :: 0 <= i < j < |choices| && choices[i].value == choices[j].value then Some(IntegrityError)
    else None
  }

  function GroupFault(earlier: seq<GroupIn>, g: GroupIn): Option<Fault> {
    match ColumnFault(|g.name| <= 100, g.position)
    case Some(fault) => Some(fault)
    case None =>
      if exists i :: 0 <= i < |earlier| && earlier[i].name == g.name then Some(IntegrityError)
      else ChoicesFault(g.choices)
  }

  function GroupsFault(groups: seq<GroupIn>): Option<Fault> {
    if groups == [] then None else
      var front := groups[..|groups| - 1];
      match GroupsFault(front)
      case Some(fault) => Some(fault)
      case None => GroupFault(front, groups[|groups| - 1])
  }

  predicate CategoryOf(t: Tables, store: Id, category: Id) {
    category in t.categories && t.categories[category].store == store
  }

  /** The first refusal met while inserting the product, its images, then each axis with its options;
      the category foreign key is checked at commit. */
  function BuildFault(t: Tables, store: Id, category: Id, slug: string, p: ProductIn): Option<Fault> {
    match ProductFault(t, store, slug, p)
    case Some(fault) => Some(fault)
    case None =>
      match ImagesFault(p.images)
      case Some(fault) => Some(fault)
      case None =>
        match GroupsFault(p.groups)
        case Some(fault) => Some(fault)
        case None => if CategoryOf(t, store, category) then None else Some(IntegrityError)
  }

  // ----- the rows it inserts -----

  function WithImages(m: map<Id, Image>, store: Id, product: Id, images: seq<ImageIn>): map<Id, Image> {
    if images == [] then m else
      var last := images[|images| - 1];
      WithImages(m, store, product, images[..|images| - 1])
        [last.id := Image(store, product, last.url, last.alt, last.position)]
  }

  function WithChoices(m: map<Id, Choice>, store: Id, group: Id, choices: seq<ChoiceIn>): map<Id, Choice> {
    if choices == [] then m else
      var last := choices[|choices| - 1];
      WithChoices(m, store, group, choices[..|choices| - 1])
        [last.id := Choice(store, group, last.value, last.hex, last.position)]
  }

  function WithGroups(m: map<Id, Group>, store: Id, product: Id, groups: seq<GroupIn>): map<Id, Group> {
    if groups == [] then m else
      var last := groups[|groups| - 1];
      WithGroups(m, store, product, groups[..|groups| - 1])
        [last.id := Group(store, product, last.name, last.position)]
  }

  function WithGroupChoices(m: map<Id, Choice>, store: Id, groups: seq<GroupIn>): map<Id, Choice> {
    if groups == [] then m else
      var last := groups[|groups| - 1];
      WithChoices(WithGroupChoices(m, store, groups[..|groups| - 1]), store, last.id, last.choices)
  }

  function ProductRow(store: Id, category: Id, slug: string, p: ProductIn, now: Time): Product {
    Product(store, category, p.name, slug, p.description, p.price, p.visible, p.featured, now, now)
  }

  function Built(t: Tables, store: Id, category: Id, slug: string, p: ProductIn, now: Time): Tables {
    t.(products := t.products[p.id := ProductRow(store, category, slug, p, now)],
       images := WithImages(t.images, store, p.id, p.images),
       groups := WithGroups(t.groups, store, p.id, p.groups),
       choices := WithGroupChoices(t.choices, store, p.groups),
       issued := t.issued + ToSet(RowIds(p)))
  }

  function CategoryFault(t: Tables, store: Id, id: Id, name: string, slug: string, position: int): Option<Fault> {
    match ColumnFault(|name| <= 255 && |slug| <= 255, position)
    case Some(fault) => Some(fault)
    case None =>
      if CategorySlugTaken(t.categories, store, slug) || !Fresh(t, [id]) then Some(IntegrityError) else None
  }

  function WithCategory(t: Tables, store: Id, id: Id, name: string, slug: string, position: int): Tables {
    t.(categories := t.categories[id := Category(store, name, slug, position)], issued := t.issued + {id})
  }

  // ----- update and delete -----

  predicate ProductOf(t: Tables, store: Id, product: Id) {
    product in t.products && t.products[product].store == store
  }

  /** The category a slug names in a store; slugs are unique there, so at most one. */
  function CategoryNamed(t: Tables, store: Id, slug: string): (found: Option<Id>)
    ensures found.Some? ==> CategoryOf(t, store, found.value) && t.categories[found.value].slug == slug
    ensures found.None? ==> !CategorySlugTaken(t.categories, store, slug)
  {
    var ids := set c | c in t.categories && t.categories[c].store == store && t.categories[c].slug == slug;
    if ids == {} then
      assert forall c :: c in t.categories && t.categories[c].store == store && t.categories[c].slug == slug ==>
               c in ids;
      None
    else Some(Least(ids))
  }

  predicate IsLeast(least: Id, ids: set<Id>) {
    least in ids && forall id :: id in ids ==> least <= id
  }

  function Least(ids: set<Id>): (least: Id)
    requires ids != {}
    ensures IsLeast(least, ids)
  {
    LeastExists(ids);
    var least :| least in ids && IsLeast(least, ids);
    least
  }

  lemma {:induction false} LeastExists(ids: set<Id>)
    requires ids != {}
    ensures exists least :: least in ids && IsLeast(least, ids)
    decreases |ids|
  {
    var x :| x in ids;
    var rest := ids - {x};
    assert ids == rest + {x};
    if rest == {} {
      assert IsLeast(x, ids);
    } else {
      LeastExists(rest);
      var y :| y in rest && IsLeast(y, rest);
      assert IsLeast(if x < y then x else y, ids);
    }
  }

  /** What a service call comes to: a value, an HTTP error, a database error that escapes, or a lookup that finds
      nothing where the code insists on a row. */
  datatype Outcome<+T> = Ok(value: T) | NotFound | BadRequest | Conflict | Failed(fault: Fault) | Vanished {
    predicate IsFailure() { !Ok? }

    function PropagateFailure<U>(): Outcome<U>
      requires IsFailure()
    {
      match this
      case NotFound => NotFound
      case BadRequest => BadRequest
      case Conflict => Conflict
      case Failed(fault) => Failed(fault)
      case Vanished => Vanished
    }

    function Extract(): T
      requires Ok?
    {
      value
    }
  }

  /** The row a patch leaves, or why it is refused. A null category slug is ignored like an absent one;
      any other null breaks a NOT NULL column. */
  function Patched(t: Tables, store: Id, product: Id, patch: Patch, now: Time): Outcome<Product> {
    if !ProductOf(t, store, product) then NotFound else
      var row := t.products[product];
      var category := if patch.categorySlug.Set? then CategoryNamed(t, store, patch.categorySlug.value)
                      else Some(row.category);
      if category.None? then NotFound
      else if patch.name.Set? && |patch.name.value| > 255 then Failed(DataError)
      else if patch.price.Set? && patch.price.value > MAX_INT then Failed(DataError)
      else if patch.name.Null? || patch.description.Null? || patch.price.Null? || patch.featured.Null? ||
        patch.visible.Null?
      then Failed(IntegrityError)
      else if patch.price.Set? && patch.price.value < 0 then Failed(IntegrityError)
      else Ok(row.(category := category.value,
                   name := if patch.name.Set? then patch.name.value else row.name,
                   description := if patch.description.Set? then patch.description.value else row.description,
                   price := if patch.price.Set? then patch.price.value else row.price,
                   featured := if patch.featured.Set? then patch.featured.value else row.featured,
                   visible := if patch.visible.Set? then patch.visible.value else row.visible,
                   updatedAt := now))
  }

  function ImagesLess(images: map<Id, Image>, product: Id): map<Id, Image> {
    map i | i in images && images[i].product != product :: images[i]
  }

  function GroupsLess(groups: map<Id, Group>, product: Id): map<Id, Group> {
    map g | g in groups && groups[g].product != product :: groups[g]
  }

  function ChoicesLess(choices: map<Id, Choice>, groups: map<Id, Group>, product: Id): map<Id, Choice> {
    map c | c in choices && !(choices[c].group in groups && groups[choices[c].group].product == product) :: choices[c]
  }

  function FavoritesLess(favorites: map<Id, Favorite>, product: Id): map<Id, Favorite> {
    map f | f in favorites && favorites[f].product != product :: favorites[f]
  }

  function Unlinked(items: map<Id, Item>, product: Id): map<Id, Item> {
    map i | i in items :: if items[i].product == Some(product) then items[i].(product := None) else items[i]
  }

  /** CASCADE on images, axes with their options, and favorites; SET NULL on order lines. */
  function Deleted(t: Tables, product: Id): Tables {
    t.(products := t.products - {product}, images := ImagesLess(t.images, product),
       groups := GroupsLess(t.groups, product), choices := ChoicesLess(t.choices, t.groups, product),
       favorites := FavoritesLess(t.favorites, product), items := Unlinked(t.items, product))
  }
}
