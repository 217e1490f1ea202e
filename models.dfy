/**
 * The entities of the inventory database (the `Models` namespace of the API):
 * products, purchases and their items, and the DTO shapes a purchase is read back in.
 * C# `decimal` values are modelled as exact `real`s, `DateTime` as an `int` count of ticks,
 * and a nullable string as an `Option<string>`.
 */
module Models {
  import opened Wrappers
  import opened Strings

  /** A row of the Products table. */
  datatype Product = Product(
    id: int,
    name: string,
    description: string,
    imageUrl: Option<string>,
    quantity: real,
    price: real,
    stockType: int)

  /** One committed line of a purchase; the database keys `Id` and `PurchaseId` are not modelled. */
  datatype PurchaseItem = PurchaseItem(productId: int, quantity: real, unitPrice: real)

  /** A row of the Purchases table together with its items, in insertion order. */
  datatype Purchase = Purchase(id: int, purchaseDate: int, totalAmount: real, purchaseItems: seq<PurchaseItem>)

  datatype PurchaseItemDto = PurchaseItemDto(productId: int, quantity: real, unitPrice: real)

  datatype PurchaseDto = PurchaseDto(id: int, purchaseDate: int, totalAmount: real, items: seq<PurchaseItemDto>)

  /** `Product.UnitOfMeasure`: the display unit of a stock type; 1 is weight, 2 is volume, anything else counts units. */
  function UnitOfMeasure(p: Product): (u: string)
    ensures p.stockType == 1 <==> u == "kg"
    ensures p.stockType == 2 <==> u == "L"
    ensures p.stockType != 1 && p.stockType != 2 <==> u == "unidades"
  {
    match p.stockType
    case 1 => "kg"
    case 2 => "L"
    case _ => "unidades"
  }

  /** How a Google Drive share link begins. */
  const DriveFilePrefix := "https://drive.google.com/file/d/"

  /** How a Google Drive direct-view link begins; the file id follows. */
  const DriveViewPrefix := "https://drive.google.com/uc?export=view&id="

  /** The image URL is a non-null, non-empty Google Drive share link. */
  predicate IsDriveShareUrl(imageUrl: Option<string>) {
    imageUrl.Some? && imageUrl.value != "" && StartsWith(imageUrl.value, DriveFilePrefix)
  }

  /** In a Drive share link the first "/d/" is the one that closes the prefix. */
  lemma DriveMarkerPosition(url: string)
    requires StartsWith(url, DriveFilePrefix)
    ensures IndexOf(url, "/d/", 0) == Some(29)
  {
    ScanDrivePrefix(url, 0);
  }

  lemma {:induction false} ScanDrivePrefix(url: string, from: nat)
    requires StartsWith(url, DriveFilePrefix) && from <= 29
    ensures IndexOf(url, "/d/", from) == Some(29)
    decreases 29 - from
  {
    assert url[from] == DriveFilePrefix[from] && url[from + 1] == DriveFilePrefix[from + 1]
      && url[from + 2] == DriveFilePrefix[from + 2];
    if from < 29 {
      assert url[from..from + 3] != "/d/" by {
        assert DriveFilePrefix[from] != '/' || DriveFilePrefix[from + 1] != 'd'
          || DriveFilePrefix[from + 2] != '/';
      }
      ScanDrivePrefix(url, from + 1);
    } else {
      assert url[29..32] == "/d/";
    }
  }

  /**
   * `Product.FormattedImageUrl`: a Drive share link becomes a direct-view link for the
   * same file id (`ImageUrl.Split("/d/")[1].Split('/')[0]`); any other value, `null`
   * and the empty string included, is returned as it is.
   */
  function FormattedImageUrl(p: Product): (r: Option<string>)
    ensures !IsDriveShareUrl(p.imageUrl) ==> r == p.imageUrl
    ensures IsDriveShareUrl(p.imageUrl) ==> r.Some? && StartsWith(r.value, DriveViewPrefix)
  {
    if IsDriveShareUrl(p.imageUrl) then
      var url := p.imageUrl.value;
      DriveMarkerPosition(url);
      var fileId := Split(Split(url, "/d/")[1], "/")[0];
      Some(DriveViewPrefix + fileId)
    else
      p.imageUrl
  }

  /**
   * For a Drive share link, the id placed after the direct-view prefix is the text that
   * follows the share prefix up to (not including) the next '/', or to the end of the link.
   */
  lemma DriveFileId(p: Product)
    requires IsDriveShareUrl(p.imageUrl)
    ensures var r := FormattedImageUrl(p).value;
            var rest := p.imageUrl.value[|DriveFilePrefix|..];
            var id := r[|DriveViewPrefix|..];
            r == DriveViewPrefix + id
            && id <= rest
            && (forall j :: 0 <= j < |id| ==> id[j] != '/')
            && (|id| == |rest| || rest[|id|] == '/')
  {
    var url := p.imageUrl.value;
    DriveMarkerPosition(url);
    var rest := url[32..];
    assert Split(url, "/d/")[1] == Split(rest, "/d/")[0];
    var piece := Split(rest, "/d/")[0];
    FirstPieceOfSplit(rest, "/d/");
    var id := Split(piece, "/")[0];
    FirstPieceOfSplit(piece, "/");
    forall j | 0 <= j < |id| ensures id[j] != '/' {
      assert !MatchAt(id, "/", j);
      assert id[j..j + 1] == [id[j]];
    }
    if |id| < |rest| {
      if |id| < |piece| {
        assert MatchAt(piece, "/", |id|);
        assert piece[|id|..|id| + 1] == [piece[|id|]];
      } else {
        assert MatchAt(rest, "/d/", |piece|);
        assert rest[|piece|..|piece| + 3][0] == rest[|piece|];
      }
    }
    var r := FormattedImageUrl(p).value;
    assert r == DriveViewPrefix + id;
    assert r[|DriveViewPrefix|..] == id;
  }
}
