/**
 * The static product catalog: three lists of products, their concatenation,
 * the category and device-type vocabularies and a table of price ranges.
 * Product images are not modelled; ratings are kept in tenths (4.9 is 49).
 */
module Catalog {
  import opened Wrappers

  /** A price range's upper end: a number, or JavaScript's `Infinity`. */
  datatype Bound = Finite(n: int) | Unbounded

  /** `name` is the range's display label (`label` is a Dafny keyword). */
  datatype PriceRange = PriceRange(name: string, min: int, max: Bound)

  datatype Product = Product(
    id: nat,
    name: string,
    category: string,
    deviceType: string,
    price: int,
    specs: seq<(string, string)>,
    features: seq<string>,
    ratingTenths: nat,
    reviews: nat,
    isPreOrder: Option<bool>)

  /** `price` lies in `r`, both ends included (`price >= min && price <= max`). */
  predicate InRange(price: int, r: PriceRange) {
    r.min <= price && (r.max.Unbounded? || price <= r.max.n)
  }

  /**
   * The ranges follow each other without gap or overlap of interiors: the first
   * starts at `lo`, each one's max is the next one's min, and the last is unbounded.
   */
  predicate Tiles(rs: seq<PriceRange>, lo: int)
    decreases |rs|
  {
    |rs| > 0 && rs[0].min == lo &&
    if |rs| == 1 then rs[0].max.Unbounded?
    else rs[0].max.Finite? && lo < rs[0].max.n && Tiles(rs[1..], rs[0].max.n)
  }

  /** Every price from the first range's min upwards falls in some range of a tiling. */
  lemma {:induction false} TilesCover(rs: seq<PriceRange>, lo: int, price: int)
    requires Tiles(rs, lo) && lo <= price
    ensures exists i :: 0 <= i < |rs| && InRange(price, rs[i])
  {
    if !InRange(price, rs[0]) {
      TilesCover(rs[1..], rs[0].max.n, price);
      var i :| 0 <= i < |rs[1..]| && InRange(price, rs[1..][i]);
      assert InRange(price, rs[i + 1]);
    }
  }

  /** With both ends inclusive, a price on a shared boundary belongs to both neighbouring ranges. */
  lemma {:induction false} BoundaryInBothRanges(rs: seq<PriceRange>, lo: int, i: nat)
    requires Tiles(rs, lo) && i + 1 < |rs|
    ensures rs[i].max.Finite?
    ensures InRange(rs[i].max.n, rs[i]) && InRange(rs[i].max.n, rs[i + 1])
  {
    if i > 0 {
      BoundaryInBothRanges(rs[1..], rs[0].max.n, i - 1);
      assert rs[1..][i - 1] == rs[i] && rs[1..][i] == rs[i + 1];
    } else {
      assert Tiles(rs[1..], rs[0].max.n);
    }
  }

  /** The minimum of each range is at least `lo` and below the range's own finite max. */
  lemma {:induction false} TilesMinimums(rs: seq<PriceRange>, lo: int, i: nat)
    requires Tiles(rs, lo) && i < |rs|
    ensures lo <= rs[i].min
    ensures rs[i].max.Finite? ==> rs[i].min < rs[i].max.n
  {
    if i > 0 {
      TilesMinimums(rs[1..], rs[0].max.n, i - 1);
      assert rs[1..][i - 1] == rs[i];
    }
  }

  function Laptops(): seq<Product>
  {
    [ Product(1, "SNI Phantom X1", "Gaming", "laptop", 2499,
        [("cpu", "Intel Core i9-13900H"), ("gpu", "RTX 4080"), ("ram", "32GB DDR5"),
         ("storage", "1TB NVMe SSD"), ("display", "17.3\" 4K 144Hz"), ("battery", "90Wh")],
        ["RGB Backlit Keyboard", "Advanced Cooling", "Premium Build"], 49, 127, None),
      Product(2, "SNI ProBook 15", "Professional", "laptop", 1899,
        [("cpu", "Intel Core i7-13700H"), ("gpu", "RTX 4060"), ("ram", "16GB DDR5"),
         ("storage", "512GB NVMe SSD"), ("display", "15.6\" 2K 120Hz"), ("battery", "70Wh")],
        ["Business Grade Security", "All-Day Battery", "Sleek Design"], 47, 89, None),
      Product(3, "SNI Velocity V2", "Gaming", "laptop", 3299,
        [("cpu", "AMD Ryzen 9 7940HX"), ("gpu", "RTX 4090"), ("ram", "64GB DDR5"),
         ("storage", "2TB NVMe SSD"), ("display", "18\" 4K 165Hz"), ("battery", "99Wh")],
        ["Liquid Cooling", "Mechanical Keyboard", "Premium Audio"], 49, 156, None),
      Product(4, "SNI WorkStation Pro", "Professional", "laptop", 2799,
        [("cpu", "Intel Core i9-13900HX"), ("gpu", "RTX 4070"), ("ram", "32GB DDR5"),
         ("storage", "1TB NVMe SSD"), ("display", "16\" 3K 120Hz"), ("battery", "85Wh")],
        ["ISV Certified", "Enterprise Support", "Durable Build"], 48, 73, None),
      Product(5, "SNI Stream 14", "Content Creation", "laptop", 1599,
        [("cpu", "AMD Ryzen 7 7735HS"), ("gpu", "RTX 4050"), ("ram", "16GB DDR5"),
         ("storage", "512GB NVMe SSD"), ("display", "14\" 2.8K 90Hz"), ("battery", "65Wh")],
        ["Color Accurate Display", "Lightweight", "Creator Tools"], 46, 94, None),
      Product(6, "SNI Elite X1", "Gaming", "laptop", 1999,
        [("cpu", "Intel Core i7-13650HX"), ("gpu", "RTX 4070"), ("ram", "16GB DDR5"),
         ("storage", "1TB NVMe SSD"), ("display", "15.6\" 2K 165Hz"), ("battery", "80Wh")],
        ["High Refresh Rate", "Advanced RGB", "Optimized Gaming"], 47, 112, None) ]
  }

  function Pcs(): seq<Product>
  {
    [ Product(7, "SNI Tower Pro", "Gaming", "pc", 3299,
        [("cpu", "Intel Core i9-13900K"), ("gpu", "RTX 4090"), ("ram", "64GB DDR5"),
         ("storage", "2TB NVMe SSD"), ("display", "Support 4K 144Hz"), ("power", "1000W 80+ Gold")],
        ["Liquid Cooling", "RGB Lighting", "Premium Case"], 49, 89, None),
      Product(8, "SNI Compact Mini", "Professional", "pc", 1899,
        [("cpu", "Intel Core i7-13700"), ("gpu", "RTX 4060"), ("ram", "32GB DDR5"),
         ("storage", "1TB NVMe SSD"), ("display", "Support 4K 60Hz"), ("power", "650W 80+ Gold")],
        ["Compact Design", "Quiet Operation", "Business Ready"], 47, 156, None),
      Product(9, "SNI Creator Station", "Content Creation", "pc", 4599,
        [("cpu", "AMD Ryzen 9 7950X"), ("gpu", "RTX 4080"), ("ram", "128GB DDR5"),
         ("storage", "4TB NVMe SSD"), ("display", "Support 8K 60Hz"), ("power", "1200W 80+ Platinum")],
        ["8K Ready", "Professional Grade", "Creator Optimized"], 49, 73, None) ]
  }

  function Ipods(): seq<Product>
  {
    [ Product(10, "SNI Pod Pro", "Premium", "ipod", 399,
        [("storage", "256GB"), ("battery", "40 hours"), ("display", "3.5\" Retina"),
         ("audio", "Lossless Audio"), ("connectivity", "WiFi + Bluetooth"), ("water", "IPX7 Waterproof")],
        ["Lossless Audio", "Premium Build", "Long Battery"], 48, 234, Some(true)),
      Product(11, "SNI Pod Air", "Portable", "ipod", 299,
        [("storage", "128GB"), ("battery", "30 hours"), ("display", "3.2\" HD"),
         ("audio", "High-Res Audio"), ("connectivity", "Bluetooth 5.0"), ("water", "IPX5 Water Resistant")],
        ["Lightweight", "Wireless", "Affordable"], 46, 189, Some(true)),
      Product(12, "SNI Pod Classic", "Classic", "ipod", 199,
        [("storage", "64GB"), ("battery", "25 hours"), ("display", "2.8\" LCD"),
         ("audio", "Standard Audio"), ("connectivity", "USB-C"), ("water", "Basic Protection")],
        ["Classic Design", "Simple Interface", "Budget Friendly"], 44, 145, Some(false)) ]
  }

  /** The whole catalog: laptops, then PCs, then iPods. */
  function AllProducts(): seq<Product> {
    Laptops() + Pcs() + Ipods()
  }

  /** Six laptops, ids 1 to 6, without a pre-order flag. */
  lemma LaptopsLayout()
    ensures |Laptops()| == 6
    ensures forall i :: 0 <= i < 6 ==>
      Laptops()[i].id == i + 1 && Laptops()[i].deviceType == "laptop" && Laptops()[i].isPreOrder == None
  {
  }

  /** Three PCs, ids 7 to 9, without a pre-order flag. */
  lemma PcsLayout()
    ensures |Pcs()| == 3
    ensures forall i :: 0 <= i < 3 ==> Pcs()[i].id == i + 7 && Pcs()[i].deviceType == "pc" && Pcs()[i].isPreOrder == None
  {
  }

  /** Three iPods, ids 10 to 12, each with a pre-order flag. */
  lemma IpodsLayout()
    ensures |Ipods()| == 3
    ensures forall i :: 0 <= i < 3 ==> Ipods()[i].id == i + 10 && Ipods()[i].deviceType == "ipod" && Ipods()[i].isPreOrder.Some?
  {
  }

  /** The catalog lists the laptops, then the PCs, then the iPods: ids 1 to 12, and only iPods carry a pre-order flag. */
  lemma AllProductsLayout()
    ensures var r := AllProducts();
      |r| == 12 && r[..6] == Laptops() && r[6..9] == Pcs() && r[9..] == Ipods()
      && (forall i :: 0 <= i < |r| ==> r[i].id == i + 1)
      && (forall i :: 0 <= i < |r| ==> (r[i].isPreOrder.Some? <==> r[i].deviceType == "ipod"))
  {
    LaptopsLayout();
    PcsLayout();
    IpodsLayout();
    var r := AllProducts();
    assert r[..6] == Laptops() && r[6..9] == Pcs() && r[9..] == Ipods();
    forall i | 0 <= i < 12
      ensures r[i].id == i + 1 && (r[i].isPreOrder.Some? <==> r[i].deviceType == "ipod")
    {
      if i < 6 { assert r[i] == Laptops()[i]; }
      else if i < 9 { assert r[i] == Pcs()[i - 6]; }
      else { assert r[i] == Ipods()[i - 9]; }
    }
  }

  function Categories(): seq<string> {
    ["All", "Gaming", "Professional", "Content Creation", "Premium", "Portable", "Classic"]
  }

  function DeviceTypes(): seq<string> {
    ["All", "laptop", "pc", "ipod"]
  }

  /** The price-range table exported beside the catalog. */
  function PriceRanges(): (r: seq<PriceRange>)
    ensures Tiles(r, 0)
  {
    [ PriceRange("Under $1,500", 0, Finite(1500)),
      PriceRange("$1,500 - $2,000", 1500, Finite(2000)),
      PriceRange("$2,000 - $2,500", 2000, Finite(2500)),
      PriceRange("$2,500+", 2500, Unbounded) ]
  }

  /** Ids are pairwise distinct, so a product is identified by its id. */
  lemma IdsDistinct(i: nat, j: nat)
    requires i < j < |AllProducts()|
    ensures AllProducts()[i].id != AllProducts()[j].id
  {
    AllProductsLayout();
  }

  /** Every product's category and device type is a listed value other than "All", and its price is positive. */
  lemma ProductsWellFormed(i: nat)
    requires i < |AllProducts()|
    ensures AllProducts()[i].category in Categories()[1..]
    ensures AllProducts()[i].deviceType in DeviceTypes()[1..]
    ensures AllProducts()[i].price > 0
  {
  }
}
