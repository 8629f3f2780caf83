/** The tables as one mutable object. `rivals` are committed writes of other requests that have not landed yet; they
    land, in order, whenever a service lets other requests run between two of its queries. */
module Databases {
  import opened Schema
  import opened Writes

  /** What a service can observe of the run so far. */
  datatype Moment = Moment(tables: Tables, landed: seq<Write>, rivals: seq<Write>)

  /** The writes that landed between two moments. */
  function Between(a: Moment, b: Moment): seq<Write> {
    if |a.landed| <= |b.landed| then b.landed[|a.landed|..] else []
  }

  /** From one moment to the other nothing happened but rival writes landing in order. */
  ghost predicate Ran(a: Moment, b: Moment) {
    && a.landed <= b.landed
    && a.rivals == Between(a, b) + b.rivals
    && b.tables == ApplyAll(a.tables, Between(a, b))
  }

  lemma Suffixes<T>(a: seq<T>, b: seq<T>, c: seq<T>)
    requires a <= b <= c
    ensures c[|a|..] == b[|a|..] + c[|b|..]
  {
  }

  lemma {:induction false} RanOn(a: Moment, b: Moment, c: Moment)
    requires Ran(a, b) && Ran(b, c)
    ensures Ran(a, c) && Between(a, c) == Between(a, b) + Between(b, c)
  {
    hide Apply, ApplyAll;
    Suffixes(a.landed, b.landed, c.landed);
    assert Between(a, b) + Between(b, c) + c.rivals == Between(a, b) + (Between(b, c) + c.rivals);
    ApplyAllConcat(a.tables, Between(a, b), Between(b, c));
  }

  lemma RanNowhere(m: Moment)
    ensures Ran(m, m) && Between(m, m) == []
  {
  }

  /** With no rivals left, nothing runs. */
  lemma NobodyRan(a: Moment, b: Moment)
    requires Ran(a, b)
    ensures a.rivals == [] ==> b == a
  {
    if a.rivals == [] {
      assert Between(a, b) == [];
      assert b.landed == a.landed + Between(a, b);
    }
  }

  class Database {
    var categories: map<Id, Category>
    var products: map<Id, Product>
    var images: map<Id, Image>
    var groups: map<Id, Group>
    var choices: map<Id, Choice>
    var orders: map<Id, Order>
    var items: map<Id, Item>
    var favorites: map<Id, Favorite>
    var subscriptions: map<Id, Subscription>
    var issued: set<Id>
    var rivals: seq<Write>
    var landed: seq<Write>

    constructor (t: Tables, rivals: seq<Write>)
      ensures Snapshot() == t && this.rivals == rivals && landed == []
    {
      categories, products, images, groups, choices := t.categories, t.products, t.images, t.groups, t.choices;
      orders, items, favorites, subscriptions := t.orders, t.items, t.favorites, t.subscriptions;
      issued, landed := t.issued, [];
      this.rivals := rivals;
    }

    function Snapshot(): Tables
      reads this
    {
      Tables(categories, products, images, groups, choices, orders, items, favorites, subscriptions, issued)
    }

    function Now(): Moment
      reads this
    {
      Moment(Snapshot(), landed, rivals)
    }

    method RestoreCatalog(t: Tables)
      modifies `categories, `products, `images, `groups, `choices
      ensures categories == t.categories && products == t.products && images == t.images
      ensures groups == t.groups && choices == t.choices
    {
      categories, products, images, groups, choices := t.categories, t.products, t.images, t.groups, t.choices;
    }

    method RestoreActivity(t: Tables)
      modifies `orders, `items, `favorites, `subscriptions, `issued
      ensures orders == t.orders && items == t.items && favorites == t.favorites
      ensures subscriptions == t.subscriptions && issued == t.issued
    {
      orders, items, favorites, subscriptions, issued := t.orders, t.items, t.favorites, t.subscriptions, t.issued;
    }

    /** Rolls every table back to a savepoint. */
    method Restore(t: Tables)
      modifies this
      ensures Snapshot() == t && rivals == old(rivals) && landed == old(landed)
    {
      RestoreCatalog(t);
      RestoreActivity(t);
    }

    /** Other requests run: any number of rival writes land. */
    method Yield()
      modifies this
      ensures Ran(old(Now()), Now())
    {
      hide Apply, ApplyAll;
      var count: nat :| count <= |rivals|;
      Restore(ApplyAll(Snapshot(), rivals[..count]));
      assert (landed + rivals[..count])[|landed|..] == rivals[..count];
      landed, rivals := landed + rivals[..count], rivals[count..];
    }
  }
}
