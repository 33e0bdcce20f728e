/** The public collections page: a fixed catalogue narrowed by search, category and room. */
module CollectionsPage {
  import Text
  import Seqs

  datatype Product = Product(id: int, name: string, category: string, roomType: string,
                             price: string, image: string)

  /** The catalogue the page ships with; images are named by their asset file. */
  const CATALOGUE: seq<Product> := [
    Product(1, "Royal Velvet Drapes", "curtains", "living", "₹12,500", "curtains-closeup.jpg"),
    Product(2, "Milano Modular Sofa", "sofas", "living", "₹85,000", "sofa-seating.jpg"),
    Product(3, "Elegant Roman Blinds", "blinds", "bedroom", "₹8,200", "blinds-shades.jpg"),
    Product(4, "Geometric Wall Panels", "wallpapers", "living", "₹4,500/sqft", "wallpaper-panels.jpg"),
    Product(5, "Luxe King Bed Set", "bedroom", "bedroom", "₹1,25,000", "bedroom-interior.jpg"),
    Product(6, "Classic Linen Curtains", "curtains", "bedroom", "₹9,800", "hero-living-room.jpg")
  ]

  const ALL := "all"

  /** The name contains the query, ignoring case; `all` accepts any category or room. */
  predicate Matches(query: string, category: string, room: string, p: Product) {
    && Text.ContainsIgnoreCase(p.name, query)
    && (category == ALL || p.category == category)
    && (room == ALL || p.roomType == room)
  }

  function Filtered(s: seq<Product>, query: string, category: string, room: string): seq<Product> {
    Seqs.Filter(s, p => Matches(query, category, room, p))
  }

  /** The grid shows exactly the matching products, in catalogue order. */
  lemma FilteredSpec(s: seq<Product>, query: string, category: string, room: string)
    ensures forall p :: p in Filtered(s, query, category, room) <==> p in s && Matches(query, category, room, p)
    ensures Seqs.IsSubsequence(Filtered(s, query, category, room), s)
  {
    var m := p => Matches(query, category, room, p);
    forall p ensures p in Seqs.Filter(s, m) <==> p in s && m(p) {
      Seqs.FilterMembership(s, m, p);
    }
    Seqs.FilterIsSubsequence(s, m);
  }

  /** The initial page state, an empty search with `all` and `all`, shows the whole catalogue. */
  lemma InitialShowsAll(s: seq<Product>)
    ensures Filtered(s, "", ALL, ALL) == s
  {
    forall i | 0 <= i < |s| ensures Matches("", ALL, ALL, s[i]) {
      Text.ContainsIgnoreCaseEmpty(s[i].name);
    }
    Seqs.FilterAllPass(s, p => Matches("", ALL, ALL, p));
  }

  /** The shipped catalogue has six products, and the initial page shows all of them. */
  lemma CatalogueShown()
    ensures |CATALOGUE| == 6
    ensures Filtered(CATALOGUE, "", ALL, ALL) == CATALOGUE
  {
    InitialShowsAll(CATALOGUE);
  }

  /** Filtering the shown products again with the same choices changes nothing. */
  lemma FilteredIdempotent(s: seq<Product>, query: string, category: string, room: string)
    ensures Filtered(Filtered(s, query, category, room), query, category, room) == Filtered(s, query, category, room)
  {
    Seqs.FilterIdempotent(s, p => Matches(query, category, room, p));
  }

  /** A chosen category and room admit only products of that category and room. */
  lemma SelectionRespected(s: seq<Product>, query: string, category: string, room: string, p: Product)
    requires p in Filtered(s, query, category, room)
    ensures category != ALL ==> p.category == category
    ensures room != ALL ==> p.roomType == room
  {
    FilteredSpec(s, query, category, room);
  }

  /** Narrowing the category, then the room, is the same as choosing both at once. */
  lemma {:induction false} FiltersCompose(s: seq<Product>, category: string, room: string)
    ensures Filtered(Filtered(s, "", category, ALL), "", ALL, room) == Filtered(s, "", category, room)
    decreases |s|
  {
    if s != [] {
      Text.ContainsIgnoreCaseEmpty(s[0].name);
      FiltersCompose(s[1..], category, room);
    }
  }
}
