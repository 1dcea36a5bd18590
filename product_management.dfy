/**
 * The back-office product editor: the image list of the product being edited and the
 * rule that its first entry is the main image, the checks on a chosen image file, the
 * search over the product table and the low-stock colouring.
 */
module ProductManagement {
  import opened Wrappers
  import Text
  import Seqs

  /** `s.filter((_, i) => i !== index)`: every element but the one at `index`, in order. */
  function WithoutIndex<T>(s: seq<T>, index: int): (r: seq<T>)
    ensures 0 <= index < |s| ==> r == s[..index] + s[index + 1..]
    ensures !(0 <= index < |s|) ==> r == s
  {
    if s == [] then []
    else
      var init := WithoutIndex(s[..|s| - 1], index);
      if |s| - 1 != index then init + [s[|s| - 1]] else init
  }

  /** The image part of the product form. */
  class ImageEditor {
    /** The product's images, in order. */
    var images: seq<string>
    /** The URL typed into the "add image" field. */
    var newImageUrl: string
    /** The form's main image. */
    var image: string

    /** The main image is the first entry whenever there is one. */
    predicate MainIsFirst()
      reads this
    {
      images != [] ==> image == images[0]
    }

    constructor()
      ensures images == [] && newImageUrl == "" && image == "" && MainIsFirst()
    {
      images := [];
      newImageUrl := "";
      image := "";
    }

    /** Opening a product for editing: its image, if it has one, is the only entry. */
    method Edit(productImage: string)
      modifies this
      ensures images == (if productImage != "" then [productImage] else [])
      ensures image == productImage && newImageUrl == old(newImageUrl)
      ensures MainIsFirst()
    {
      images := if productImage != "" then [productImage] else [];
      image := Text.OrElse(productImage, "");
    }

    /**
     * `handleAddImage`: the trimmed URL is appended and the field cleared; a blank URL
     * changes nothing. The first image added to an empty list becomes the main image.
     */
    method AddImage()
      modifies this
      ensures Text.Trim(old(newImageUrl)) == "" ==>
                images == old(images) && newImageUrl == old(newImageUrl) && image == old(image)
      ensures Text.Trim(old(newImageUrl)) != "" ==>
                images == old(images) + [Text.Trim(old(newImageUrl))] && newImageUrl == ""
      ensures Text.Trim(old(newImageUrl)) != "" && old(images) == [] ==> image == Text.Trim(old(newImageUrl))
      ensures old(images) != [] ==> image == old(image)
      ensures old(MainIsFirst()) ==> MainIsFirst()
    {
      var url := Text.Trim(newImageUrl);
      if url != "" {
        var wasEmpty := |images| == 0;
        images := images + [url];
        newImageUrl := "";
        if wasEmpty {
          image := url;
        }
      }
    }

    /** An uploaded file's URL is added the same way, without touching the URL field. */
    method AddUploaded(url: string)
      modifies this
      ensures url == "" ==> images == old(images) && image == old(image)
      ensures url != "" ==> images == old(images) + [url]
      ensures url != "" && old(images) == [] ==> image == url
      ensures old(images) != [] ==> image == old(image)
      ensures newImageUrl == old(newImageUrl)
      ensures old(MainIsFirst()) ==> MainIsFirst()
    {
      if url != "" {
        var wasEmpty := |images| == 0;
        images := images + [url];
        if wasEmpty {
          image := url;
        }
      }
    }

    /**
     * `handleRemoveImage`: exactly the entry at `index` goes, the others keep their
     * order. Removing the first entry promotes the next one to main image; removing the
     * last one clears the main image.
     */
    method RemoveImage(index: int)
      modifies this
      ensures images == WithoutIndex(old(images), index)
      ensures index == 0 && images != [] ==> image == images[0]
      ensures images == [] ==> image == ""
      ensures index != 0 && images != [] ==> image == old(image)
      ensures newImageUrl == old(newImageUrl)
      ensures old(MainIsFirst()) ==> MainIsFirst()
    {
      var remaining := WithoutIndex(images, index);
      images := remaining;
      if index == 0 && |remaining| > 0 {
        image := remaining[0];
      } else if |remaining| == 0 {
        image := "";
      }
    }

    /** `handleCloseModal`: the image list, the URL field and the main image are emptied. */
    method Close()
      modifies this
      ensures images == [] && newImageUrl == "" && image == "" && MainIsFirst()
    {
      images := [];
      newImageUrl := "";
      image := "";
    }
  }

  /**
   * The image sent on submit: the first entry if there is one, else the form's image;
   * an empty result is sent as null.
   */
  function SubmittedImage(images: seq<string>, image: string): (sent: Option<string>)
    ensures images != [] && images[0] != "" ==> sent == Some(images[0])
    ensures images != [] && images[0] == "" ==> sent.None?
    ensures images == [] ==> (sent.None? <==> image == "") && (sent.Some? ==> sent.value == image)
    ensures sent.Some? ==> sent.value != ""
  {
    var mainImage := if |images| > 0 then images[0] else image;
    if mainImage == "" then None else Some(mainImage)
  }

  /** While the main image is the first entry, exactly the main image is sent (or null). */
  lemma SubmittedImageIsMainImage(images: seq<string>, image: string)
    requires images != [] ==> image == images[0]
    ensures SubmittedImage(images, image) == if image == "" then None else Some(image)
  {
  }

  /** A file picked for upload: its MIME type and its size in bytes. */
  datatype FileInfo = FileInfo(mimeType: string, size: int)

  datatype FileVerdict = NoFile | Rejected(message: string) | Accepted

  const NotAnImage := "Bitte wählen Sie eine Bilddatei aus"
  const TooLarge := "Die Datei ist zu groß. Maximale Größe: 5MB"
  const MaxFileSize := 5 * 1024 * 1024

  /**
   * The checks before an upload: the type is checked first, so a file that is not an
   * image is rejected as such whatever its size; an image over 5 MiB is rejected.
   */
  function CheckFile(file: Option<FileInfo>): (v: FileVerdict)
    ensures file.None? <==> v.NoFile?
    ensures file.Some? && !Text.StartsWith(file.value.mimeType, "image/") ==> v == Rejected(NotAnImage)
    ensures file.Some? && Text.StartsWith(file.value.mimeType, "image/") && file.value.size > 5242880 ==> v == Rejected(TooLarge)
    ensures v.Accepted? <==> file.Some? && Text.StartsWith(file.value.mimeType, "image/") && file.value.size <= 5242880
  {
    match file
    case None => NoFile
    case Some(f) =>
      if !Text.StartsWith(f.mimeType, "image/") then Rejected(NotAnImage)
      else if f.size > MaxFileSize then Rejected(TooLarge)
      else Accepted
  }

  /** A row of the product table; a missing barcode or SKU is None. */
  datatype AdminProduct = AdminProduct(
    id: string, name: string, barcode: Option<string>, sku: Option<string>, category: string, stock: int, minStock: int)

  predicate FieldMatches(field: Option<string>, term: string) {
    field.Some? && Text.Contains(Text.Lower(field.value), Text.Lower(term))
  }

  /** The search keeps a product whose name, barcode or SKU contains the term, within the chosen category. */
  function AdminKeep(p: AdminProduct, term: string, category: string): (keep: bool)
    ensures term == "" && category == "" ==> keep
    ensures keep ==> category == "" || p.category == category
  {
    Text.ContainsEmpty(Text.Lower(p.name));
    && (Text.Contains(Text.Lower(p.name), Text.Lower(term)) || FieldMatches(p.barcode, term) || FieldMatches(p.sku, term))
    && (category == "" || p.category == category)
  }

  /** `filteredProducts` of the product table: exactly the matching products, in order. */
  function AdminFiltered(products: seq<AdminProduct>, term: string, category: string): (r: seq<AdminProduct>)
    ensures forall i :: 0 <= i < |r| ==> r[i] in products && AdminKeep(r[i], term, category)
    ensures forall i :: 0 <= i < |products| && AdminKeep(products[i], term, category) ==> products[i] in r
    ensures forall x :: multiset(r)[x] == if AdminKeep(x, term, category) then multiset(products)[x] else 0
  {
    Seqs.FilterMultiset(products, p => AdminKeep(p, term, category));
    Seqs.Filter(products, p => AdminKeep(p, term, category))
  }

  /** With no search term and no category every product is listed, in order. */
  lemma EmptySearchListsAll(products: seq<AdminProduct>)
    ensures AdminFiltered(products, "", "") == products
  {
    forall i | 0 <= i < |products| ensures AdminKeep(products[i], "", "") {
      Text.ContainsEmpty(Text.Lower(products[i].name));
    }
    Seqs.FilterAll(products, p => AdminKeep(p, "", ""));
  }

  /** The stock figure is shown in red exactly when it is at or below the minimum stock. */
  function StockShownRed(p: AdminProduct): (red: bool)
    ensures red <==> p.stock <= p.minStock
    ensures p.stock <= 0 && p.minStock >= 0 ==> red
  {
    p.stock <= p.minStock
  }
}
