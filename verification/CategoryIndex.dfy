/** The category index (apps/products/selectors.py, `categories_index`): one card per category, built in a loop. */
module CategoryIndex {
  import opened Basics
  import opened Ordering
  import opened Schema
  import opened Texts
  import opened Coherence
  import opened Grid
  import opened Facets

  datatype Card = Card(id: Id, name: string, slug: string, count: nat, cover: Option<string>)

  /** COUNT(DISTINCT products) FILTER (is_visible): the join does not mention the store. */
  function VisibleUnder(products: map<Id, Product>, category: Id): set<Id> {
    set p | p in products && products[p].category == category && products[p].visible
  }

  function CoverCandidates(t: Tables, store: Id, category: Id): set<Id> {
    set i | i in t.images && t.images[i].store == store && t.images[i].product in VisibleUnder(t.products, category)
  }

  /** ORDER BY featured first, newest product first, image position. */
  function CoverRank(t: Tables): Rank {
    i => if i in t.images && t.images[i].product in t.products then
           var p := t.products[t.images[i].product];
           (if p.featured then 0 else 1, -p.createdAt, t.images[i].position)
         else (0, 0, 0)
  }

  function CoverOf(t: Tables, store: Id, category: Id): Option<string> {
    var images := CoverCandidates(t, store, category);
    if images == {} then None else Some(t.images[First(CoverRank(t), images)].url)
  }

  predicate CardFor(t: Tables, store: Id, card: Card) {
    card.id in t.categories &&
    card == Card(card.id, t.categories[card.id].name, t.categories[card.id].slug, |VisibleUnder(t.products, card.id)|,
                 CoverOf(t, store, card.id))
  }

  function Shelves(t: Tables, store: Id): set<Id> {
    set c | c in t.categories && t.categories[c].store == store
  }

  function CardIds(cards: seq<Card>): seq<Id> {
    seq(|cards|, i requires 0 <= i < |cards| => cards[i].id)
  }

  /** The cards of the index page, one loop step per shelf. */
  method CategoriesIndex(t: Tables, text: Text, store: Id) returns (cards: seq<Card>)
    ensures CardIds(cards) == Arranged(ShelfRank(t.categories, text), Shelves(t, store))
    ensures ToSet(CardIds(cards)) == Shelves(t, store) && Distinct(CardIds(cards))
    ensures InShelfOrder(t.categories, text, CardIds(cards))
    ensures forall i :: 0 <= i < |cards| ==> CardFor(t, store, cards[i])
  {
    hide VisibleUnder, CoverOf, InShelfOrder;
    ShelvesInOrder(t.categories, text, Shelves(t, store));
    var rank := ShelfRank(t.categories, text);
    var categories := Arranged(rank, Shelves(t, store));
    ArrangedExactly(rank, Shelves(t, store));
    cards := [];
    for i := 0 to |categories|
      invariant |cards| == i
      invariant forall k :: 0 <= k < i ==> cards[k].id == categories[k] && CardFor(t, store, cards[k])
    {
      var category := categories[i];
      assert category in ToSet(categories);
      var n := |VisibleUnder(t.products, category)|;
      var cover := CoverOf(t, store, category);
      cards := cards + [Card(category, t.categories[category].name, t.categories[category].slug, n, cover)];
    }
    assert CardIds(cards) == categories;
  }

  /** A card's count is the length of the grid its slug opens, with no other filter. */
  lemma {:induction false} CardCountsGrid(t: Tables, text: Text, store: Id, card: Card)
    requires CatalogOk(t) && CardFor(t, store, card) && card.id in Shelves(t, store)
    ensures card.count == |Matching(t, text, store, NO_FILTERS.(category := Some(card.slug)))|
  {
    hide ImagesOk, GroupsOk, ChoicesOk, CategoriesOk, CoverOf, Matches, InCategory;
    CategoryFacetIsGrid(t, text, store, NO_FILTERS, card.id);
    forall p | p in t.products ensures Matches(t, text, store, NO_FILTERS, p) <==> Visible(t, store, p) {
      UnfilteredIsVisible(t, text, store, p);
    }
    assert CategoryProducts(t, Matching(t, text, store, NO_FILTERS), card.id) == VisibleUnder(t.products, card.id);
  }

  lemma UnfilteredIsVisible(t: Tables, text: Text, store: Id, p: Id)
    ensures Matches(t, text, store, NO_FILTERS, p) <==> Visible(t, store, p)
  {
  }

  /** The picture comes before every other picture the store could show for the category. */
  predicate Preferred(t: Tables, i: Id, j: Id) {
    i in t.images && j in t.images && t.images[i].product in t.products && t.images[j].product in t.products &&
    var a, b := t.products[t.images[i].product], t.products[t.images[j].product];
    (a.featured && !b.featured) ||
    (a.featured == b.featured && (a.createdAt > b.createdAt ||
                                  (a.createdAt == b.createdAt && t.images[i].position <= t.images[j].position)))
  }

  predicate Pictured(t: Tables, store: Id, category: Id, i: Id) {
    i in t.images && Visible(t, store, t.images[i].product) && t.products[t.images[i].product].category == category
  }

  /** A card has a cover exactly when some visible product of its category has an image, and then the cover is one of
      those images that no other beats. */
  lemma {:induction false} CardCover(t: Tables, store: Id, card: Card)
    requires CatalogOk(t) && CardFor(t, store, card) && card.id in Shelves(t, store)
    ensures card.cover.Some? <==> exists i :: Pictured(t, store, card.id, i)
    ensures card.cover.Some? ==> exists i :: Pictured(t, store, card.id, i) && t.images[i].url == card.cover.value &&
                                             forall j :: Pictured(t, store, card.id, j) ==> Preferred(t, i, j)
  {
    hide CategoriesOk, GroupsOk, ChoicesOk;
    var images := CoverCandidates(t, store, card.id);
    forall i | Pictured(t, store, card.id, i) ensures i in images {
      assert t.images[i].product in VisibleUnder(t.products, card.id);
    }
    forall i | i in images ensures Pictured(t, store, card.id, i) {
      assert t.images[i].product in VisibleUnder(t.products, card.id);
    }
    if images != {} {
      CoverWins(t, store, card.id);
    }
  }

  lemma {:induction false} CoverWins(t: Tables, store: Id, category: Id)
    requires ImagesOk(t.images, t.products) && CoverCandidates(t, store, category) != {}
    ensures var top := First(CoverRank(t), CoverCandidates(t, store, category));
            forall j :: j in CoverCandidates(t, store, category) ==> Preferred(t, top, j)
  {
    var images := CoverCandidates(t, store, category);
    var top := First(CoverRank(t), images);
    forall j | j in images ensures Preferred(t, top, j) {
      assert j == top || Before(CoverRank(t), top, j);
    }
  }
}
