/** `create_product` inserts exactly its payload: one row per image, axis and option, each hanging off the new
    product, and nothing else. */
module BuildExact {
  import opened Basics
  import opened Schema
  import opened Catalog

  lemma {:induction false} DistinctParts<T>(a: seq<T>, b: seq<T>)
    requires Distinct(a + b)
    ensures Distinct(a) && Distinct(b)
    ensures forall x :: x in a ==> x !in b
  {
    assert forall i :: 0 <= i < |a| ==> (a + b)[i] == a[i];
    assert forall i :: 0 <= i < |b| ==> (a + b)[|a| + i] == b[i];
  }

  ghost predicate NewTo<V>(m: map<Id, V>, ids: seq<Id>) {
    Distinct(ids) && forall id :: id in ids ==> id !in m
  }

  ghost predicate ImagesAdded(m: map<Id, Image>, after: map<Id, Image>, store: Id, product: Id, images: seq<ImageIn>) {
    && (forall k :: k in m ==> k in after && after[k] == m[k])
    && (forall k :: k in after && k !in m ==> exists im :: im in images && im.id == k)
    && (forall im :: im in images ==>
          im.id in after && im.id !in m && after[im.id] == Image(store, product, im.url, im.alt, im.position))
  }

  lemma {:induction false} ImagesExact(m: map<Id, Image>, store: Id, product: Id, images: seq<ImageIn>)
    requires NewTo(m, ImageIds(images))
    ensures ImagesAdded(m, WithImages(m, store, product, images), store, product, images)
  {
    if images != [] {
      var front, last := images[..|images| - 1], images[|images| - 1];
      assert images == front + [last];
      assert ImageIds(images) == ImageIds(front) + [last.id];
      DistinctParts(ImageIds(front), [last.id]);
      assert forall id :: id in ImageIds(front) ==> id in ImageIds(images);
      assert last.id in ImageIds(images);
      ImagesExact(m, store, product, front);
      ImageIdsMembers(front);
    }
  }

  lemma {:induction false} ImageIdsMembers(images: seq<ImageIn>)
    ensures forall im :: im in images ==> im.id in ImageIds(images)
  {
    forall im | im in images ensures im.id in ImageIds(images) {
      var i :| 0 <= i < |images| && images[i] == im;
      assert ImageIds(images)[i] == im.id;
    }
  }

  ghost predicate ChoicesAdded(m: map<Id, Choice>, after: map<Id, Choice>, store: Id, group: Id,
                               choices: seq<ChoiceIn>) {
    && (forall k :: k in m ==> k in after && after[k] == m[k])
    && (forall k :: k in after && k !in m ==> exists c :: c in choices && c.id == k)
    && (forall c :: c in choices ==>
          c.id in after && c.id !in m && after[c.id] == Choice(store, group, c.value, c.hex, c.position))
  }

  lemma {:induction false} ChoiceIdsMembers(choices: seq<ChoiceIn>)
    ensures forall c :: c in choices ==> c.id in ChoiceIds(choices)
  {
    forall c | c in choices ensures c.id in ChoiceIds(choices) {
      var i :| 0 <= i < |choices| && choices[i] == c;
      assert ChoiceIds(choices)[i] == c.id;
    }
  }

  lemma {:induction false} ChoicesExact(m: map<Id, Choice>, store: Id, group: Id, choices: seq<ChoiceIn>)
    requires NewTo(m, ChoiceIds(choices))
    ensures ChoicesAdded(m, WithChoices(m, store, group, choices), store, group, choices)
  {
    if choices != [] {
      var front, last := choices[..|choices| - 1], choices[|choices| - 1];
      assert choices == front + [last];
      assert ChoiceIds(choices) == ChoiceIds(front) + [last.id];
      DistinctParts(ChoiceIds(front), [last.id]);
      assert forall id :: id in ChoiceIds(front) ==> id in ChoiceIds(choices);
      assert last.id in ChoiceIds(choices);
      ChoicesExact(m, store, group, front);
      ChoiceIdsMembers(front);
    }
  }

  /** The ids of a list of axes are those of the axes and those of their options. */
  lemma {:induction false} GroupRowIdsMembers(groups: seq<GroupIn>)
    ensures forall g :: g in groups ==> g.id in GroupRowIds(groups)
    ensures forall g, c :: g in groups && c in g.choices ==> c.id in GroupRowIds(groups)
  {
    if groups != [] {
      var front, last := groups[..|groups| - 1], groups[|groups| - 1];
      assert groups == front + [last];
      GroupRowIdsMembers(front);
      ChoiceIdsMembers(last.choices);
    }
  }

  ghost predicate GroupsAdded(m: map<Id, Group>, after: map<Id, Group>, store: Id, product: Id, groups: seq<GroupIn>) {
    && (forall k :: k in m ==> k in after && after[k] == m[k])
    && (forall k :: k in after && k !in m ==> exists g :: g in groups && g.id == k)
    && (forall g :: g in groups ==>
          g.id in after && g.id !in m && after[g.id] == Group(store, product, g.name, g.position))
  }

  /** Peeling the last axis off a payload keeps the remaining ids new, and the peeled ids apart from them. */
  lemma {:induction false} PeelGroup(m: set<Id>, groups: seq<GroupIn>)
    requires groups != []
    requires Distinct(GroupRowIds(groups)) && forall id :: id in GroupRowIds(groups) ==> id !in m
    ensures var front, last := groups[..|groups| - 1], groups[|groups| - 1];
            && Distinct(GroupRowIds(front)) && (forall id :: id in GroupRowIds(front) ==> id !in m)
            && last.id !in m && last.id !in GroupRowIds(front) && last.id !in ChoiceIds(last.choices)
            && Distinct(ChoiceIds(last.choices))
            && (forall id :: id in ChoiceIds(last.choices) ==> id !in m && id !in GroupRowIds(front))
  {
    var front, last := groups[..|groups| - 1], groups[|groups| - 1];
    var tail := ChoiceIds(last.choices);
    assert GroupRowIds(groups) == GroupRowIds(front) + ([last.id] + tail);
    DistinctParts(GroupRowIds(front), [last.id] + tail);
    DistinctParts([last.id], tail);
    assert last.id in [last.id] + tail && last.id in [last.id];
    assert forall id :: id in tail ==> id in [last.id] + tail;
  }

  lemma {:induction false} GroupsExact(m: map<Id, Group>, store: Id, product: Id, groups: seq<GroupIn>)
    requires NewTo(m, GroupRowIds(groups))
    ensures GroupsAdded(m, WithGroups(m, store, product, groups), store, product, groups)
  {
    if groups != [] {
      var front, last := groups[..|groups| - 1], groups[|groups| - 1];
      assert groups == front + [last];
      PeelGroup(m.Keys, groups);
      GroupsExact(m, store, product, front);
      GroupRowIdsMembers(front);
    }
  }

  ghost predicate GroupChoicesAdded(m: map<Id, Choice>, after: map<Id, Choice>, store: Id, groups: seq<GroupIn>) {
    && (forall k :: k in m ==> k in after && after[k] == m[k])
    && (forall k :: k in after && k !in m ==> exists g, c :: g in groups && c in g.choices && c.id == k)
    && (forall g, c :: g in groups && c in g.choices ==>
          c.id in after && c.id !in m && after[c.id] == Choice(store, g.id, c.value, c.hex, c.position))
  }

  lemma {:induction false} GroupChoicesExact(m: map<Id, Choice>, store: Id, groups: seq<GroupIn>)
    requires NewTo(m, GroupRowIds(groups))
    ensures GroupChoicesAdded(m, WithGroupChoices(m, store, groups), store, groups)
  {
    if groups != [] {
      var front, last := groups[..|groups| - 1], groups[|groups| - 1];
      assert groups == front + [last];
      PeelGroup(m.Keys, groups);
      GroupChoicesExact(m, store, front);
      GroupRowIdsMembers(front);
      ChoiceIdsMembers(last.choices);
      var before := WithGroupChoices(m, store, front);
      assert NewTo(before, ChoiceIds(last.choices));
      ChoicesExact(before, store, last.id, last.choices);
    }
  }

  // ----- which payloads are refused, and how -----

  predicate ImageTooLarge(im: ImageIn) {
    |im.url| > 500 || |im.alt| > 255 || im.position > 2147483647
  }

  predicate ChoiceTooLarge(c: ChoiceIn) {
    |c.value| > 100 || |c.hex| > 7 || c.position > 2147483647
  }

  ghost predicate GroupTooLarge(g: GroupIn) {
    |g.name| > 100 || g.position > 2147483647 || exists c :: c in g.choices && ChoiceTooLarge(c)
  }

  /** Some value of the product, its images, axes or options does not fit its column. */
  ghost predicate TooLarge(slug: string, p: ProductIn) {
    |p.name| > 255 || |slug| > 255 || p.price > 2147483647 || (exists im :: im in p.images && ImageTooLarge(im)) ||
    exists g :: g in p.groups && GroupTooLarge(g)
  }

  /** A negative position, or a value listed twice. */
  ghost predicate GroupBreaks(g: GroupIn) {
    g.position < 0 || (exists c :: c in g.choices && c.position < 0) ||
    exists i, j :: 0 <= i < j < |g.choices| && g.choices[i].value == g.choices[j].value
  }

  ghost predicate AxesBreak(groups: seq<GroupIn>) {
    (exists g :: g in groups && GroupBreaks(g)) ||
    exists i, j :: 0 <= i < j < |groups| && groups[i].name == groups[j].name
  }

  /** A product of the store has the slug. */
  ghost predicate SlugHeld(products: map<Id, Product>, store: Id, slug: string) {
    exists q :: q in products && products[q].store == store && products[q].slug == slug
  }

  /** Some constraint does not hold: a negative number, an axis or a value named twice, a slug some product of the store
      has, a uuid handed out before, a category that is not the store's. */
  ghost predicate Breaks(t: Tables, store: Id, category: Id, slug: string, p: ProductIn) {
    p.price < 0 || (exists im :: im in p.images && im.position < 0) || AxesBreak(p.groups) ||
    SlugHeld(t.products, store, slug) || !Fresh(t, RowIds(p)) ||
    !(category in t.categories && t.categories[category].store == store)
  }

  lemma {:induction false} ImagesRefused(images: seq<ImageIn>)
    ensures var fault := ImagesFault(images);
            && (fault == Some(DataError) <==> exists im :: im in images && ImageTooLarge(im))
            && (fault == Some(IntegrityError) ==> exists im :: im in images && im.position < 0)
            && (fault.None? ==> forall im :: im in images ==> im.position >= 0)
  {
    forall im | im in images
      ensures ImageTooLarge(im) ==> ImagesFault(images) == Some(DataError)
      ensures im.position < 0 ==> ImagesFault(images).Some?
    {
      var i :| 0 <= i < |images| && images[i] == im;
    }
    assert forall i :: 0 <= i < |images| ==> images[i] in images;
  }

  lemma {:induction false} ChoicesRefused(g: GroupIn)
    ensures var fault := ChoicesFault(g.choices);
            && (fault == Some(DataError) <==> exists c :: c in g.choices && ChoiceTooLarge(c))
            && (fault == Some(IntegrityError) ==> GroupBreaks(g))
            && (fault.None? ==> g.position < 0 || !GroupBreaks(g))
  {
    forall c | c in g.choices
      ensures ChoiceTooLarge(c) ==> ChoicesFault(g.choices) == Some(DataError)
      ensures c.position < 0 ==> ChoicesFault(g.choices).Some?
    {
      var i :| 0 <= i < |g.choices| && g.choices[i] == c;
    }
    assert forall i :: 0 <= i < |g.choices| ==> g.choices[i] in g.choices;
  }

  lemma {:induction false} GroupRefused(earlier: seq<GroupIn>, g: GroupIn)
    ensures var fault := GroupFault(earlier, g);
            && (fault == Some(DataError) ==> GroupTooLarge(g))
            && (fault == Some(IntegrityError) ==> GroupBreaks(g) || exists h :: h in earlier && h.name == g.name)
            && (fault.None? ==> !GroupTooLarge(g) && !GroupBreaks(g) && forall h :: h in earlier ==> h.name != g.name)
  {
    hide ChoicesFault;
    ChoicesRefused(g);
  }

  lemma {:induction false} AxesBreakAt(groups: seq<GroupIn>)
    requires groups != []
    ensures var front, last := groups[..|groups| - 1], groups[|groups| - 1];
            AxesBreak(groups) <==>
            AxesBreak(front) || GroupBreaks(last) || exists h :: h in front && h.name == last.name
  {
    hide GroupBreaks;
    var front, last := groups[..|groups| - 1], groups[|groups| - 1];
    assert groups == front + [last];
    if h :| h in front && h.name == last.name {
      var i :| 0 <= i < |front| && front[i] == h;
      assert groups[i].name == groups[|groups| - 1].name;
    }
    if i, j :| 0 <= i < j < |front| && front[i].name == front[j].name {
      assert groups[i].name == groups[j].name;
    }
    if i, j :| 0 <= i < j < |groups| && groups[i].name == groups[j].name {
      assert groups[i] in front && (j < |front| ==> front[i].name == front[j].name);
    }
  }

  lemma {:induction false} GroupsRefused(groups: seq<GroupIn>)
    ensures var fault := GroupsFault(groups);
            && (fault == Some(DataError) ==> exists g :: g in groups && GroupTooLarge(g))
            && (fault == Some(IntegrityError) ==> AxesBreak(groups))
            && (fault.None? ==> (forall g :: g in groups ==> !GroupTooLarge(g)) && !AxesBreak(groups))
  {
    hide GroupFault, GroupTooLarge, GroupBreaks, AxesBreak;
    if groups == [] {
      NoAxesBreak();
    } else {
      var front, last := groups[..|groups| - 1], groups[|groups| - 1];
      assert groups == front + [last];
      GroupsRefused(front);
      GroupRefused(front, last);
      AxesBreakAt(groups);
    }
  }

  lemma NoAxesBreak()
    ensures !AxesBreak([])
  {
  }

  /** A payload is accepted exactly when every value fits its column and every constraint holds. A data error means that
      something is too large, an integrity error that a constraint is broken; of the product's own row the sizes are
      looked at first. */
  lemma {:induction false} AcceptedExactly(t: Tables, store: Id, category: Id, slug: string, p: ProductIn)
    ensures var fault := BuildFault(t, store, category, slug, p);
            && (fault.None? <==> !TooLarge(slug, p) && !Breaks(t, store, category, slug, p))
            && (fault == Some(DataError) ==> TooLarge(slug, p))
            && (fault == Some(IntegrityError) ==> Breaks(t, store, category, slug, p))
            && (|p.name| > 255 || |slug| > 255 || p.price > 2147483647 ==> fault == Some(DataError))
  {
    hide ImagesFault, GroupsFault, ImageTooLarge, GroupTooLarge, AxesBreak, Fresh, RowIds;
    ImagesRefused(p.images);
    GroupsRefused(p.groups);
    var fault := BuildFault(t, store, category, slug, p);
    assert SlugTaken(t.products, store, slug) <==> SlugHeld(t.products, store, slug);
    assert fault.Some? ==> fault.value.DataError? || fault.value.IntegrityError?;
  }
}
