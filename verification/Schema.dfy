/** The tables behind the services: one map per table, keyed by row id, with the column bounds
    and the rows' own types. Row ids and timestamps are plain numbers in id and time order. */
module Schema {
  import opened Basics

  type Id = nat
  type Time = int

  /** The largest value an integer column holds. */
  const MAX_INT := 0x7fff_ffff

  datatype Category = Category(store: Id, name: string, slug: string, position: int)

  datatype Product = Product(store: Id, category: Id, name: string, slug: string, description: string,
                             price: int, visible: bool, featured: bool, createdAt: Time, updatedAt: Time)

  datatype Image = Image(store: Id, product: Id, url: string, alt: string, position: int)

  /** A selection axis of a product. */
  datatype Group = Group(store: Id, product: Id, name: string, position: int)

  /** One value on an axis. */
  datatype Choice = Choice(store: Id, group: Id, value: string, hex: string, position: int)

  datatype Status = New | Confirmed | Fulfilled | Cancelled

  datatype Contact = Contact(name: string, phone: string, address: string, note: string)

  datatype Order = Order(store: Id, customer: Id, key: string, status: Status, contact: Contact,
                         total: int, createdAt: Time, updatedAt: Time)

  datatype Item = Item(store: Id, order: Id, product: Option<Id>, quantity: int, unitPrice: int,
                       name: string, imageUrl: string, options: map<string, string>)

  datatype Favorite = Favorite(store: Id, customer: Id, product: Id, createdAt: Time)

  datatype Subscription = Subscription(store: Id, user: Id, endpoint: string, p256dh: string, auth: string)

  /** `issued` holds every row id ever handed out, deleted rows included. */
  datatype Tables = Tables(categories: map<Id, Category>, products: map<Id, Product>, images: map<Id, Image>,
                           groups: map<Id, Group>, choices: map<Id, Choice>,
                           orders: map<Id, Order>, items: map<Id, Item>,
                           favorites: map<Id, Favorite>, subscriptions: map<Id, Subscription>,
                           issued: set<Id>)

  /** What the database answers when it refuses a statement. */
  datatype Fault = DataError | IntegrityError

  /** A fresh uuid collides with nothing; a list of them does not collide with itself. */
  predicate Fresh(t: Tables, ids: seq<Id>) {
    Distinct(ids) && forall id :: id in ids ==> id !in t.issued
  }

  predicate SlugTaken(products: map<Id, Product>, store: Id, slug: string) {
    exists p :: p in products && products[p].store == store && products[p].slug == slug
  }

  predicate CategorySlugTaken(categories: map<Id, Category>, store: Id, slug: string) {
    exists c :: c in categories && categories[c].store == store && categories[c].slug == slug
  }

  predicate KeyTaken(orders: map<Id, Order>, store: Id, customer: Id, key: string) {
    exists o :: o in orders && orders[o].store == store && orders[o].customer == customer && orders[o].key == key
  }
}
