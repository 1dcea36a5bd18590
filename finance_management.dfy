/**
 * The back-office profitability table: which product rows are expanded, which column
 * the table is sorted by and in which direction, and the sorted rows.
 */
module FinanceManagement {
  import Text
  import Sorting

  /** A row of the profitability table (amounts in Rappen). */
  datatype ProductProfit = ProductProfit(id: string, name: string, totalRevenue: int, profit: int)

  datatype SortField = Profit | Revenue | Name
  datatype SortOrder = Asc | Desc

  /** `toggleProduct` on a set: the id goes in when it was out and out when it was in. */
  function Toggled(expanded: set<string>, id: string): (r: set<string>)
    ensures id in r <==> id !in expanded
    ensures forall other :: other != id ==> (other in r <==> other in expanded)
  {
    if id in expanded then expanded - {id} else expanded + {id}
  }

  /** Toggling the same row twice restores the set of expanded rows. */
  lemma ToggleTwice(expanded: set<string>, id: string)
    ensures Toggled(Toggled(expanded, id), id) == expanded
  {
  }

  /** The comparator: by profit, revenue or name, negated for the descending order. */
  function Compare(field: SortField, order: SortOrder, a: ProductProfit, b: ProductProfit): int {
    var comparison :=
      match field
      case Profit => a.profit - b.profit
      case Revenue => a.totalRevenue - b.totalRevenue
      case Name => Text.LexCompare(a.name, b.name);
    if order == Asc then comparison else -comparison
  }

  function Comparator(field: SortField, order: SortOrder): (ProductProfit, ProductProfit) -> int {
    (a: ProductProfit, b: ProductProfit) => Compare(field, order, a, b)
  }

  lemma ComparatorConsistent(field: SortField, order: SortOrder)
    ensures Sorting.Consistent(Comparator(field, order))
  {
    forall a: ProductProfit, b: ProductProfit
      ensures Compare(field, order, a, b) <= 0 || Compare(field, order, b, a) <= 0
    {
      Text.LexCompareFlip(a.name, b.name);
    }
    forall a: ProductProfit, b: ProductProfit, c: ProductProfit
      | Compare(field, order, a, b) <= 0 && Compare(field, order, b, c) <= 0
      ensures Compare(field, order, a, c) <= 0
    {
      if field == Name {
        Text.LexCompareFlip(a.name, b.name);
        Text.LexCompareFlip(b.name, c.name);
        Text.LexCompareFlip(a.name, c.name);
        if order == Asc {
          Text.LexCompareTransitive(a.name, b.name, c.name);
        } else {
          Text.LexCompareTransitive(c.name, b.name, a.name);
        }
      }
    }
  }

  /** `sortedProducts`: the rows sorted on a copy, a permutation of them. */
  function SortedProducts(products: seq<ProductProfit>, field: SortField, order: SortOrder): (r: seq<ProductProfit>)
    ensures multiset(r) == multiset(products)
    ensures |r| == |products|
  {
    Sorting.SortLength(products, Comparator(field, order));
    Sorting.Sort(products, Comparator(field, order))
  }

  /** Ascending sorts give a non-decreasing key, descending sorts a non-increasing one. */
  lemma SortedByKey(products: seq<ProductProfit>, field: SortField, order: SortOrder)
    requires field != Name
    ensures forall i, j :: 0 <= i < j < |SortedProducts(products, field, order)| ==>
              var a, b := SortedProducts(products, field, order)[i], SortedProducts(products, field, order)[j];
              var ka, kb := (if field == Profit then a.profit else a.totalRevenue),
                            (if field == Profit then b.profit else b.totalRevenue);
              if order == Asc then ka <= kb else ka >= kb
  {
    ComparatorConsistent(field, order);
    Sorting.SortSorted(products, Comparator(field, order));
  }

  /**
   * Sorting by name orders the names by `localeCompare` (character-code order here):
   * ascending gives non-decreasing names, descending non-increasing ones.
   */
  lemma SortedByName(products: seq<ProductProfit>, order: SortOrder)
    ensures forall i, j :: 0 <= i < j < |SortedProducts(products, Name, order)| ==>
              var c := Text.LexCompare(SortedProducts(products, Name, order)[i].name,
                                       SortedProducts(products, Name, order)[j].name);
              if order == Asc then c <= 0 else c >= 0
  {
    ComparatorConsistent(Name, order);
    Sorting.SortSorted(products, Comparator(Name, order));
  }

  /** The table's view state. */
  class FinanceView {
    var expanded: set<string>
    var sortBy: SortField
    var sortOrder: SortOrder

    /** The table starts sorted by profit, highest first, with no row expanded. */
    constructor()
      ensures expanded == {} && sortBy == Profit && sortOrder == Desc
    {
      expanded := {};
      sortBy := Profit;
      sortOrder := Desc;
    }

    /** `toggleProduct`: expands or collapses one row. */
    method ToggleProduct(id: string)
      modifies this
      ensures expanded == Toggled(old(expanded), id)
      ensures sortBy == old(sortBy) && sortOrder == old(sortOrder)
    {
      var next := expanded;
      if id in next {
        next := next - {id};
      } else {
        next := next + {id};
      }
      expanded := next;
    }

    /**
     * `handleSort`: the current column flips its direction; another column is selected
     * with the descending order.
     */
    method HandleSort(field: SortField)
      modifies this
      ensures old(sortBy) == field ==> sortBy == field && sortOrder != old(sortOrder)
      ensures old(sortBy) != field ==> sortBy == field && sortOrder == Desc
      ensures expanded == old(expanded)
    {
      if sortBy == field {
        sortOrder := if sortOrder == Asc then Desc else Asc;
      } else {
        sortBy := field;
        sortOrder := Desc;
      }
    }
  }
}
