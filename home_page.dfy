/**
 * The home page: the products it considers, the featured carousel and its rotation,
 * and the counts on the four fixed category tiles.
 */
module HomePage {
  import Seqs

  /** A product as the home page reads it; a missing image is "", a missing `isActive` false. */
  datatype HomeProduct = HomeProduct(id: string, name: string, sellPrice: int, image: string, category: string, isActive: bool)

  predicate Considered(p: HomeProduct) {
    p.isActive && p.image != ""
  }

  /** Only the active products that have an image are considered, in their order. */
  function ConsideredProducts(products: seq<HomeProduct>): (r: seq<HomeProduct>)
    ensures forall i :: 0 <= i < |r| ==> r[i] in products && r[i].isActive && r[i].image != ""
    ensures forall i :: 0 <= i < |products| && Considered(products[i]) ==> products[i] in r
    ensures forall x :: multiset(r)[x] == if Considered(x) then multiset(products)[x] else 0
  {
    Seqs.FilterMultiset(products, Considered);
    Seqs.Filter(products, Considered)
  }

  /** The featured products: the first four considered ones (fewer when there are fewer). */
  function Featured(considered: seq<HomeProduct>): (r: seq<HomeProduct>)
    ensures |r| == if |considered| < 4 then |considered| else 4
    ensures forall i :: 0 <= i < |r| ==> r[i] == considered[i]
  {
    if |considered| <= 4 then considered else considered[..4]
  }

  /** A category tile. */
  datatype Tile = Tile(name: string, image: string, count: nat, description: string)

  /** The four fixed tiles, each with count 0 until the products are loaded. */
  const DefaultTiles: seq<Tile> := [
    Tile("Skier", "https://images.unsplash.com/photo-1552853662-8f707e1cb336?q=80&w=2346&auto=format&fit=crop&ixlib=rb-4.1.0&ixid=M3wxMjA3fDB8MHxwaG90by1wYWdlfHx8fGVufDB8fHx8fA%3D%3D", 0, "Professionelle Skier für jede Piste"),
    Tile("Schuhe", "https://images.unsplash.com/photo-1634044439395-3251148b9b2c?q=80&w=1925&auto=format&fit=crop&ixlib=rb-4.1.0&ixid=M3wxMjA3fDB8MHxwaG90by1wYWdlfHx8fGVufDB8fHx8fA%3D%3D", 0, "Komfortable und warme Skischuhe"),
    Tile("Technik", "https://images.unsplash.com/photo-1518770660439-4636190af475?w=1200&h=800&fit=crop", 0, "Moderne Technologie für Ihre Ausrüstung"),
    Tile("Zubehör", "https://images.unsplash.com/photo-1703694741127-64f46e544971?q=80&w=2340&auto=format&fit=crop&ixlib=rb-4.1.0&ixid=M3wxMjA3fDB8MHxwaG90by1wYWdlfHx8fGVufDB8fHx8fA%3D%3D", 0, "Alles was Sie für die Piste brauchen")
  ]

  function InCategory(c: string): HomeProduct -> bool {
    (p: HomeProduct) => p.category == c
  }

  /** Each fixed tile gets the number of considered products in its category; nothing else changes. */
  function UpdatedTiles(considered: seq<HomeProduct>): (tiles: seq<Tile>)
    ensures |tiles| == |DefaultTiles|
    ensures forall i :: 0 <= i < |tiles| ==>
              tiles[i] == DefaultTiles[i].(count := Seqs.Count(considered, InCategory(DefaultTiles[i].name)))
  {
    seq(|DefaultTiles|, i requires 0 <= i < |DefaultTiles| =>
      DefaultTiles[i].(count := Seqs.Count(considered, InCategory(DefaultTiles[i].name))))
  }

  predicate InFixedCategory(p: HomeProduct) {
    p.category == "Skier" || p.category == "Schuhe" || p.category == "Technik" || p.category == "Zubehör"
  }

  function TileTotal(tiles: seq<Tile>): nat {
    if tiles == [] then 0 else tiles[0].count + TileTotal(tiles[1..])
  }

  /**
   * Every considered product in a fixed category is counted on exactly one tile, and a
   * product of any other category on none: the tiles add up to the considered products
   * less those outside the fixed list.
   */
  lemma {:induction false} TilesCountFixedCategoriesOnce(considered: seq<HomeProduct>)
    ensures TileTotal(UpdatedTiles(considered)) + Seqs.Count(considered, p => !InFixedCategory(p)) == |considered|
  {
    var t := UpdatedTiles(considered);
    assert TileTotal(t[3..]) == t[3].count by { assert t[3..][1..] == []; }
    assert TileTotal(t[2..]) == t[2].count + TileTotal(t[3..]) by { assert t[2..][1..] == t[3..]; }
    assert TileTotal(t[1..]) == t[1].count + TileTotal(t[2..]) by { assert t[1..][1..] == t[2..]; }
    PartitionByFixedCategory(considered);
  }

  lemma {:induction false} PartitionByFixedCategory(s: seq<HomeProduct>)
    ensures Seqs.Count(s, InCategory("Skier")) + Seqs.Count(s, InCategory("Schuhe"))
            + Seqs.Count(s, InCategory("Technik")) + Seqs.Count(s, InCategory("Zubehör"))
            + Seqs.Count(s, p => !InFixedCategory(p)) == |s|
  {
    if s != [] {
      PartitionByFixedCategory(s[1..]);
    }
  }

  /** The featured carousel: which featured product is shown, and whether it rotates. */
  class Carousel {
    var index: nat
    var count: nat
    var rotating: bool

    predicate InRange()
      reads this
    {
      count == 0 || index < count
    }

    constructor()
      ensures index == 0 && count == 0 && !rotating && InRange()
    {
      index := 0;
      count := 0;
      rotating := false;
    }

    /** The featured list was replaced: the rotation runs exactly when it is non-empty. */
    method SetFeatured(n: nat)
      modifies this
      ensures count == n && index == old(index)
      ensures rotating <==> n > 0
    {
      count := n;
      rotating := n > 0;
    }

    /** One rotation step: the next product, wrapping around after the last. */
    method Tick()
      modifies this
      ensures rotating && count > 0 ==> index == (old(index) + 1) % count
      ensures !(rotating && count > 0) ==> index == old(index)
      ensures count == old(count) && rotating == old(rotating)
      ensures count > 0 && rotating ==> InRange()
    {
      if rotating && count > 0 {
        index := (index + 1) % count;
      }
    }

    /** An indicator was clicked: show that product. */
    method Select(i: nat)
      requires i < count
      modifies this
      ensures index == i && count == old(count) && rotating == old(rotating)
      ensures InRange()
    {
      index := i;
    }
  }
}
