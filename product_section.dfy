/**
 * The catalog grid of the POS screen (`ProductSection`): a fixed product list, the
 * name filter driven by the search box, and the loading / empty / cards branches.
 */
module ProductSection {
  import opened Wrappers
  import Seqs
  import Text
  import opened ProductCard

  /** A catalog image: a 500 × 500 crop of a stock photo. */
  function Photo(name: string): string
  {
    "https://images.unsplash.com/" + name + "?w=500&h=500&fit=crop"
  }

  /** The fixed catalog, prices in minor units (29.99 is 2999). */
  const Catalog: seq<Product> := [
    Product("burger-1", "Classic Burger", 2999, Photo("photo-1568901346375-23c9450c58cd")),
    Product("burger-2", "Cheese Burger Deluxe", 3499, Photo("photo-1586190848861-99aa4a171e90")),
    Product("burger-3", "BBQ Bacon Burger", 3999, Photo("photo-1594212699903-ec8a3eca50f5")),
    Product("pizza-1", "Pepperoni Pizza", 3999, Photo("photo-1604382355076-af4b0eb60143")),
    Product("pizza-2", "Margherita Pizza", 3499, Photo("photo-1513104890138-7c749659a591")),
    Product("pizza-3", "Supreme Pizza", 4499, Photo("photo-1574071318508-1cdbab80d002")),
    Product("chicken-1", "Grilled Chicken", 3499, Photo("photo-1626074353765-517a681e40be")),
    Product("chicken-2", "Chicken Wings (8pcs)", 2999, Photo("photo-1567620832903-9fc6debc209f")),
    Product("chicken-3", "Chicken Tenders", 2499, Photo("photo-1562967914-608f82629710")),
    Product("fish-1", "Grilled Fish", 4499, Photo("photo-1585032226651-759b368d7246")),
    Product("fish-2", "Fish & Chips", 3499, Photo("photo-1579208575657-c595a05383b7")),
    Product("salad-1", "Caesar Salad", 1999, Photo("photo-1623428187969-5da2dcea5ebf")),
    Product("salad-2", "Greek Salad", 2199, Photo("photo-1540420773420-3366772f4999")),
    Product("pasta-1", "Spaghetti Bolognese", 2499, Photo("photo-1621996346565-e3dbc646d9a9")),
    Product("pasta-2", "Fettuccine Alfredo", 2699, Photo("photo-1645112411341-6c4fd023714a")),
    Product("pasta-3", "Shrimp Scampi", 2999, Photo("photo-1563379926898-05f4575a45d8")),
    Product("dessert-1", "Chocolate Cake", 1499, Photo("photo-1551024601-bec78aea704b")),
    Product("dessert-2", "Cheesecake", 1599, Photo("photo-1524351199678-941a58a3df50")),
    Product("dessert-3", "Tiramisu", 1399, Photo("photo-1571877227200-a0d98ea607e9")),
    Product("drinks-1", "Fresh Smoothie", 999, Photo("photo-1509482560494-4126f8225994")),
    Product("drinks-2", "Iced Coffee", 799, Photo("photo-1461023058943-07fcbe16d735")),
    Product("drinks-3", "Fresh Lemonade", 699, Photo("photo-1621263764928-df1444c5e859"))
  ]

  /** The filter's test: the lower-cased name includes the lower-cased query. */
  predicate Matches(p: Product, query: string)
  {
    Text.Contains(Text.Lower(p.name), Text.Lower(query))
  }

  /** The name filter over a product list. */
  function FilterByName(products: seq<Product>, query: string): seq<Product>
  {
    Seqs.Filter(products, (p: Product) => Matches(p, query))
  }

  /** What the grid shows. */
  datatype Grid = Placeholders(count: nat) | NoProducts | Cards(products: seq<Product>)

  /**
   * The grid over a product list for the optional props `isLoading` and `searchQuery`
   * (default ""): while loading, 12 placeholders whatever the filter yields; then the
   * empty message, or one card per matching product.
   */
  function Show(products: seq<Product>, isLoading: Option<bool>, searchQuery: Option<string>): (g: Grid)
    ensures isLoading == Some(true) ==> g == Placeholders(12)
    ensures isLoading != Some(true) ==>
      var shown := FilterByName(products, if searchQuery.Some? then searchQuery.value else "");
      && (g == NoProducts <==> shown == [])
      && (g.Cards? <==> shown != [])
      && (g.Cards? ==> g.products == shown)
  {
    var query := if searchQuery.Some? then searchQuery.value else "";
    var filtered := FilterByName(products, query);
    if isLoading == Some(true) then Placeholders(12)
    else if |filtered| == 0 then NoProducts
    else Cards(filtered)
  }

  /** The component itself: the grid over the fixed catalog. */
  function Render(isLoading: Option<bool>, searchQuery: Option<string>): Grid
  {
    Show(Catalog, isLoading, searchQuery)
  }

  /** The shown products come from the list, in its order, and are exactly those that match. */
  lemma FilteredIsOrderedSelection(products: seq<Product>, query: string)
    ensures Seqs.IsSubsequence(FilterByName(products, query), products)
    ensures forall p :: p in FilterByName(products, query) <==> p in products && Matches(p, query)
  {
  }

  /** The empty query keeps every product of any list. */
  lemma EmptyQueryKeepsEvery(products: seq<Product>)
    ensures FilterByName(products, "") == products
  {
    assert Text.Lower("") == "";
    forall i | 0 <= i < |products| ensures Matches(products[i], "") {
      Text.ContainsEmpty(Text.Lower(products[i].name));
    }
    Seqs.FilterKeepsAll(products, (p: Product) => Matches(p, ""));
  }

  /** With the default props, a non-empty list shows every product as a card. */
  lemma EmptyQueryKeepsAll(products: seq<Product>)
    requires products != []
    ensures Show(products, None, None) == Cards(products)
  {
    EmptyQueryKeepsEvery(products);
  }

  /** With the default props the component shows the whole catalog. */
  lemma DefaultShowsCatalog()
    ensures Render(None, None) == Cards(Catalog)
  {
    assert Catalog != [] by {
      assert |Catalog| == 22;
    }
    EmptyQueryKeepsAll(Catalog);
  }

  /** No two catalog products share an id. */
  lemma CatalogIdsDistinct()
    ensures forall i, j :: 0 <= i < j < |Catalog| ==> Catalog[i].id != Catalog[j].id
  {
  }
}
