/** The storefront's product route (apps/products/controllers/storefront_controller.py): facet parameters split on
    commas, and paging by clamping and slicing. */
module Storefront {
  import opened Basics
  import opened Ordering
  import opened Schema
  import opened Spaces
  import opened Texts
  import opened Grid

  // ----- comma-separated parameters -----

  /** `s.split(",")`: always at least one part. */
  function Split(s: string): (parts: seq<string>)
    ensures parts != []
  {
    if s == "" then [""]
    else
      var rest := Split(s[1..]);
      if s[0] == ',' then [""] + rest else [[s[0]] + rest[0]] + rest[1..]
  }

  function TrimLeft(s: string): string {
    if s != "" && Space(s[0]) then TrimLeft(s[1..]) else s
  }

  function TrimRight(s: string): string {
    if s != "" && Space(s[|s| - 1]) then TrimRight(s[..|s| - 1]) else s
  }

  /** `s.strip()` */
  function Strip(s: string): string {
    TrimRight(TrimLeft(s))
  }

  /** The comprehension over the parts: blank ones are dropped, the others stripped. */
  function Kept(parts: seq<string>): seq<string> {
    if parts == [] then []
    else (if Strip(parts[0]) != "" then [Strip(parts[0])] else []) + Kept(parts[1..])
  }

  function Multi(value: Option<string>): seq<string> {
    if value.None? || value.value == "" then [] else Kept(Split(value.value))
  }

  /** Values as a client writes them into one parameter. */
  function Joined(values: seq<string>): string {
    if values == [] then ""
    else if |values| == 1 then values[0]
    else values[0] + "," + Joined(values[1..])
  }

  /** A value the parameter can carry unharmed. */
  predicate Carried(v: string) {
    v != "" && ',' !in v && !Space(v[0]) && !Space(v[|v| - 1])
  }

  lemma {:induction false} SplitPlain(s: string)
    requires ',' !in s
    ensures Split(s) == [s]
  {
    if s != "" {
      SplitPlain(s[1..]);
      assert s == [s[0]] + s[1..];
    }
  }

  lemma {:induction false} SplitHead(head: string, tail: string)
    requires ',' !in head
    ensures Split(head + "," + tail) == [head] + Split(tail)
  {
    var s := head + "," + tail;
    if head == "" {
      assert s[1..] == tail;
    } else {
      assert s[1..] == head[1..] + "," + tail;
      SplitHead(head[1..], tail);
      assert head == [head[0]] + head[1..];
    }
  }

  lemma {:induction false} TrimLeftPart(s: string)
    ensures TrimLeft(s) == "" || !Space(TrimLeft(s)[0])
    ensures forall c :: c in TrimLeft(s) ==> c in s
  {
    if s != "" && Space(s[0]) {
      TrimLeftPart(s[1..]);
    }
  }

  lemma {:induction false} TrimRightPart(s: string)
    ensures TrimRight(s) <= s
    ensures TrimRight(s) == "" || !Space(TrimRight(s)[|TrimRight(s)| - 1])
  {
    if s != "" && Space(s[|s| - 1]) {
      TrimRightPart(s[..|s| - 1]);
    }
  }

  lemma {:induction false} StripCarried(part: string)
    requires ',' !in part && Strip(part) != ""
    ensures Carried(Strip(part))
  {
    TrimLeftPart(part);
    TrimRightPart(TrimLeft(part));
    var s := Strip(part);
    assert s[0] == TrimLeft(part)[0];
    forall c | c in s ensures c != ',' {
      var i :| 0 <= i < |s| && s[i] == c;
      assert TrimLeft(part)[i] == c;
    }
  }

  lemma {:induction false} PartsPlain(s: string)
    ensures forall p :: p in Split(s) ==> ',' !in p
  {
    if s != "" {
      PartsPlain(s[1..]);
      var rest := Split(s[1..]);
      assert rest[0] in rest;
    }
  }

  lemma {:induction false} KeptCarried(parts: seq<string>)
    requires forall p :: p in parts ==> ',' !in p
    ensures forall v :: v in Kept(parts) ==> Carried(v)
  {
    hide Strip, Carried;
    if parts != [] {
      KeptCarried(parts[1..]);
      assert parts[0] in parts;
      if Strip(parts[0]) != "" {
        StripCarried(parts[0]);
      }
    }
  }

  /** Whatever comes in, every value that comes out is non-blank, trimmed and free of commas. */
  lemma {:induction false} MultiCarried(value: Option<string>)
    ensures forall v :: v in Multi(value) ==> Carried(v)
  {
    if value.Some? {
      PartsPlain(value.value);
      KeptCarried(Split(value.value));
    }
  }

  lemma {:induction false} KeptAsIs(v: string, rest: seq<string>)
    requires Carried(v)
    ensures Kept([v] + rest) == [v] + Kept(rest)
  {
    assert TrimLeft(v) == v && TrimRight(v) == v;
    assert ([v] + rest)[1..] == rest;
  }

  lemma {:induction false} CarriedThrough(values: seq<string>)
    requires values != [] && forall v :: v in values ==> Carried(v)
    ensures Joined(values) != "" && Kept(Split(Joined(values))) == values
  {
    hide Carried, Kept, Split;
    var head := values[0];
    assert head in values;
    CarriedFacts(head);
    if |values| == 1 {
      SplitPlain(head);
      KeptAsIs(head, []);
      assert [head] + [] == [head] && values == [head];
      KeptNothing();
    } else {
      var tail := values[1..];
      CarriedThrough(tail);
      SplitHead(head, Joined(tail));
      KeptAsIs(head, Split(Joined(tail)));
      assert values == [head] + tail;
    }
  }

  lemma CarriedFacts(v: string)
    requires Carried(v)
    ensures v != "" && ',' !in v
  {
  }

  lemma KeptNothing()
    ensures Kept([]) == []
  {
  }

  /** The round trip holds exactly for values without commas, blanks or outer white space. */
  lemma {:induction false} MultiRoundTrip(values: seq<string>)
    ensures Multi(Some(Joined(values))) == values <==> forall v :: v in values ==> Carried(v)
  {
    hide Carried, Split, Kept;
    MultiCarried(Some(Joined(values)));
    if values != [] && forall v :: v in values ==> Carried(v) {
      CarriedThrough(values);
    }
  }

  /** Splitting what was joined after a split changes nothing. */
  lemma {:induction false} MultiTwice(value: Option<string>)
    ensures Multi(Some(Joined(Multi(value)))) == Multi(value)
  {
    hide Multi, Joined, Carried;
    MultiCarried(value);
    MultiRoundTrip(Multi(value));
  }

  // ----- what becomes of padded values -----

  /** One part of a parameter: a value, possibly blank, between white space. */
  datatype Padded = Padded(lead: string, value: string, trail: string)

  predicate AllSpace(s: string) {
    forall i :: 0 <= i < |s| ==> s[i] in WHITE_SPACE
  }

  /** White space around a value that has no comma and does not itself begin or end with white space. */
  predicate WellPadded(part: Padded) {
    AllSpace(part.lead) && AllSpace(part.trail) && ',' !in part.value &&
    (part.value != "" ==> part.value[0] !in WHITE_SPACE && part.value[|part.value| - 1] !in WHITE_SPACE)
  }

  function Written(parts: seq<Padded>): seq<string> {
    if parts == [] then [] else [parts[0].lead + parts[0].value + parts[0].trail] + Written(parts[1..])
  }

  function Values(parts: seq<Padded>): seq<string> {
    if parts == [] then [] else (if parts[0].value == "" then [] else [parts[0].value]) + Values(parts[1..])
  }

  lemma {:induction false} AllBlank(s: string)
    requires AllSpace(s)
    ensures forall i :: 0 <= i < |s| ==> Space(s[i])
    ensures ',' !in s
  {
    hide Space;
    forall i | 0 <= i < |s| ensures Space(s[i]) && s[i] != ',' {
      SpacesListed(s[i]);
    }
  }

  lemma {:induction false} LeadTrimmed(s: string, rest: string)
    requires forall i :: 0 <= i < |s| ==> Space(s[i])
    ensures TrimLeft(s + rest) == TrimLeft(rest)
  {
    hide Space;
    if s == "" {
      assert s + rest == rest;
    } else {
      LeadTrimmed(s[1..], rest);
      assert (s + rest)[1..] == s[1..] + rest;
    }
  }

  lemma {:induction false} TrailTrimmed(s: string, rest: string)
    requires forall i :: 0 <= i < |s| ==> Space(s[i])
    ensures TrimRight(rest + s) == TrimRight(rest)
  {
    hide Space;
    if s == "" {
      assert rest + s == rest;
    } else {
      TrailTrimmed(s[..|s| - 1], rest);
      assert (rest + s)[..|rest + s| - 1] == rest + s[..|s| - 1];
    }
  }

  lemma {:induction false} PaddedStripped(part: Padded)
    requires WellPadded(part)
    ensures Strip(part.lead + part.value + part.trail) == part.value
    ensures ',' !in part.lead + part.value + part.trail
  {
    hide Space, AllSpace;
    var v := part.value;
    assert part.lead + v + part.trail == part.lead + (v + part.trail);
    AllBlank(part.lead);
    AllBlank(part.trail);
    LeadTrimmed(part.lead, v + part.trail);
    LeadTrimmed(part.trail, "");
    TrailTrimmed(part.trail, v);
    assert "" + part.trail == part.trail && part.trail + "" == part.trail;
    if v != "" {
      SpacesListed(v[0]);
      SpacesListed(v[|v| - 1]);
      assert (v + part.trail)[0] == v[0];
    } else {
      assert v + part.trail == part.trail;
    }
  }

  lemma {:induction false} WrittenKept(parts: seq<Padded>)
    requires parts != [] && forall part :: part in parts ==> WellPadded(part)
    ensures Kept(Split(Joined(Written(parts)))) == Values(parts)
  {
    hide WellPadded, Strip, Split;
    var part := parts[0];
    var text := part.lead + part.value + part.trail;
    PaddedStripped(part);
    if |parts| == 1 {
      assert parts[1..] == [] && Written(parts) == [text];
      SplitPlain(text);
    } else {
      assert |Written(parts)| > 1 && Written(parts)[1..] == Written(parts[1..]);
      SplitHead(text, Joined(Written(parts[1..])));
      WrittenKept(parts[1..]);
      assert ([text] + Split(Joined(Written(parts[1..]))))[1..] == Split(Joined(Written(parts[1..])));
    }
  }

  /** However the values of a parameter are padded, and wherever blanks stand between the commas: out come the values
      that are not blank, without their padding, in their order. */
  lemma {:induction false} MultiPadded(parts: seq<Padded>)
    requires forall part :: part in parts ==> WellPadded(part)
    ensures Multi(Some(Joined(Written(parts)))) == Values(parts)
  {
    hide WellPadded, Kept, Split;
    if parts != [] {
      WrittenKept(parts);
      if Joined(Written(parts)) == "" {
        NothingSplit();
      }
    }
  }

  lemma NothingSplit()
    ensures Kept(Split("")) == []
  {
  }

  // ----- paging -----

  const MAX_PAGE := 60

  /** `max(1, min(limit, 60))` */
  function ClampLimit(limit: int): (l: int)
    ensures 1 <= l <= 60
    ensures 1 <= limit <= 60 ==> l == limit
    ensures (limit < 1 ==> l == 1) && (limit > 60 ==> l == 60)
  {
    var capped := if limit < MAX_PAGE then limit else MAX_PAGE;
    if capped > 1 then capped else 1
  }

  /** `max(0, offset)` */
  function ClampOffset(offset: int): (o: nat)
    ensures offset >= 0 ==> o == offset
    ensures offset < 0 ==> o == 0
  {
    if offset > 0 then offset else 0
  }

  /** A Python slice with bounds that may lie past the end. */
  function Slice<T>(list: seq<T>, from: nat, to: nat): seq<T>
    requires from <= to
  {
    if from >= |list| then [] else if to >= |list| then list[from..] else list[from..to]
  }

  function Page<T>(list: seq<T>, limit: int, offset: int): (page: seq<T>) {
    var l, o := ClampLimit(limit), ClampOffset(offset);
    Slice(list, o, o + l)
  }

  /** The first `count` pages a client fetches by stepping the offset by the limit it was given back. */
  function Pages<T>(list: seq<T>, limit: int, count: nat): seq<T> {
    if count == 0 then []
    else Pages(list, limit, count - 1) + Page(list, limit, (count - 1) * ClampLimit(limit))
  }

  function Prefix<T>(list: seq<T>, n: nat): seq<T> {
    if n <= |list| then list[..n] else list
  }

  lemma {:induction false} PrefixGrows<T>(list: seq<T>, o: nat, l: nat)
    ensures Prefix(list, o) + Slice(list, o, o + l) == Prefix(list, o + l)
  {
  }

  lemma {:induction false} PagesArePrefix<T>(list: seq<T>, limit: int, count: nat)
    ensures count * ClampLimit(limit) >= 0 && Pages(list, limit, count) == Prefix(list, count * ClampLimit(limit))
  {
    hide ClampLimit, Slice, Prefix;
    var l := ClampLimit(limit);
    if count == 0 {
      NoPages(list);
    } else {
      PagesArePrefix(list, limit, count - 1);
      PrefixGrows(list, (count - 1) * l, l);
      assert count * l == (count - 1) * l + l;
    }
  }

  lemma NoPages<T>(list: seq<T>)
    ensures Prefix(list, 0) == []
  {
  }

  /** For every limit, even one out of range, the pages in turn are the list: nothing skipped, nothing twice, and each
      page but the last is full. A client stops at the first empty page, which comes exactly past the end. */
  lemma {:induction false} PagesCover<T>(list: seq<T>, limit: int, count: nat)
    ensures count * ClampLimit(limit) >= |list| <==> Pages(list, limit, count) == list
    ensures Page(list, limit, count * ClampLimit(limit)) == [] <==> Pages(list, limit, count) == list
    ensures (count + 1) * ClampLimit(limit) <= |list| ==>
              |Page(list, limit, count * ClampLimit(limit))| == ClampLimit(limit)
  {
    PagesArePrefix(list, limit, count);
    var l := ClampLimit(limit);
    assert (count + 1) * l == count * l + l;
    assert count * l >= 0;
  }

  // ----- the route -----

  datatype Listing = Listing(items: seq<Id>, count: nat, limit: int, offset: int)

  /** One page of the sorted grid, with the length of the whole. */
  method Products(t: Tables, text: Text, store: Id, category: Option<string>, colour: Option<string>,
                  size: Option<string>, priceMin: Option<int>, priceMax: Option<int>, q: Option<string>, sort: string,
                  limit: int, offset: int)
    returns (listing: Listing)
    ensures var grid := Matching(t, text, store, Filters(category, Multi(colour), Multi(size), priceMin, priceMax, q));
            && listing.count == |grid|
            && listing.items == Page(Arranged(SortRank(t.products, sort), grid), limit, offset)
            && forall p :: p in listing.items ==> p in grid && Visible(t, store, p)
    ensures listing.limit == ClampLimit(limit) && listing.offset == ClampOffset(offset)
    ensures |listing.items| <= listing.limit
    ensures listing.items == [] <==> listing.offset >= listing.count
  {
    hide Matches, Matching, SortRank, Multi;
    var f := Filters(category, Multi(colour), Multi(size), priceMin, priceMax, q);
    var l, o := ClampLimit(limit), ClampOffset(offset);
    var list := ListProducts(t, text, store, sort, f);
    var items := Slice(list, o, o + l);
    forall p | p in items ensures p in Matching(t, text, store, f) && Visible(t, store, p) {
      assert p in ToSet(list);
      ShownIsVisible(t, text, store, f, p);
    }
    listing := Listing(items, |list|, l, o);
  }

  lemma ShownIsVisible(t: Tables, text: Text, store: Id, f: Filters, p: Id)
    requires p in Matching(t, text, store, f)
    ensures Visible(t, store, p)
  {
  }

  /** Paging through an unchanged grid shows every matching product exactly once. */
  lemma {:induction false} GridPaged(t: Tables, text: Text, store: Id, f: Filters, sort: string, limit: int, count: nat)
    requires count * ClampLimit(limit) >= |Matching(t, text, store, f)|
    ensures var shown := Pages(Arranged(SortRank(t.products, sort), Matching(t, text, store, f)), limit, count);
            ToSet(shown) == Matching(t, text, store, f) && Distinct(shown)
  {
    hide Matching, Pages, SortRank;
    ArrangedExactly(SortRank(t.products, sort), Matching(t, text, store, f));
    PagesCover(Arranged(SortRank(t.products, sort), Matching(t, text, store, f)), limit, count);
  }
}
