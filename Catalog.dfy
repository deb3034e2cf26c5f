/** The static catalog and user directory of the application (the brand,
    coupon, user and category tables) and the lookups over them. Nothing here
    is ever mutated.

    The lookups are stated over an arbitrary table, and the exported names
    (GetCouponsByBrandId, ...) apply them to the tables below. Long text is
    written as a concatenation of short literals: the string is the same, and
    the verifier handles short literals far more cheaply. */
module Catalog {
  import opened Types
  import opened Seqs
  import Text

  function Brands(): seq<Brand>
  {
    [
      Brand("1", "Nike",
        "https://" + "images.pexels.co" + "m/photos/" + "19677271/" +
        "pexels-photo-196" + "77271/" + "free-photo-of-a-" +
        "nike-logo-on-a-w" + "hite-background." + "jpeg?" + "auto=compress&" +
        "cs=tinysrgb&" + "w=1260&h=750&" + "dpr=1",
        "Nike, Inc. is " + "an American " + "multinational " + "corporation " +
        "that designs, " + "develops, " + "manufactures, " + "and markets " +
        "footwear, " + "apparel, " + "equipment, " + "accessories, " +
        "and services.",
        "Fashion", true, 25),
      Brand("2", "Apple",
        "https://" + "images.pexels.co" + "m/photos/" + "1334597/" +
        "pexels-photo-133" + "4597.jpeg?" + "auto=compress&" + "cs=tinysrgb&" +
        "w=1260&h=750&" + "dpr=1",
        "Apple Inc. is " + "an American " + "multinational " + "technology " +
        "company that " + "designs, " + "develops, and " + "sells consumer " +
        "electronics, " + "computer " + "software, and " + "online services.",
        "Technology", true, 15),
      Brand("3", "Starbucks",
        "https://" + "images.pexels.co" + "m/photos/683039/" +
        "pexels-photo-683" + "039.jpeg?" + "auto=compress&" + "cs=tinysrgb&" +
        "w=1260&h=750&" + "dpr=1",
        "Starbucks " + "Corporation is " + "an American " + "multinational " +
        "chain of " + "coffeehouses " + "and roastery " + "reserves.",
        "Food & Beverage", true, 20),
      Brand("4", "Amazon",
        "https://" + "images.pexels.co" + "m/photos/607812/" +
        "pexels-photo-607" + "812.jpeg?" + "auto=compress&" + "cs=tinysrgb&" +
        "w=1260&h=750&" + "dpr=1",
        "Amazon.com, " + "Inc. is an " + "American " + "multinational " +
        "technology " + "company which " + "focuses on " + "e-commerce, " +
        "cloud " + "computing, " + "digital " + "streaming, and " +
        "artificial " + "intelligence.",
        "Retail", false, 10),
      Brand("5", "Adidas",
        "https://" + "images.pexels.co" + "m/photos/" + "7166802/" +
        "pexels-photo-716" + "6802.jpeg?" + "auto=compress&" + "cs=tinysrgb&" +
        "w=1260&h=750&" + "dpr=1",
        "Adidas AG is a " + "German " + "multinational " + "corporation " +
        "that designs " + "and " + "manufactures " + "shoes, clothing " +
        "and accessories.",
        "Fashion", false, 30),
      Brand("6", "McDonald's",
        "https://" + "images.pexels.co" + "m/photos/" + "2347311/" +
        "pexels-photo-234" + "7311.jpeg?" + "auto=compress&" + "cs=tinysrgb&" +
        "w=1260&h=750&" + "dpr=1",
        "McDonald's " + "Corporation is " + "an American " + "fast food " +
        "company, " + "founded in 1940.",
        "Food & Beverage", false, 15),
      Brand("7", "Samsung",
        "https://" + "images.pexels.co" + "m/photos/343457/" +
        "pexels-photo-343" + "457.jpeg?" + "auto=compress&" + "cs=tinysrgb&" +
        "w=1260&h=750&" + "dpr=1",
        "Samsung " + "Electronics " + "Co., Ltd. is a " + "South Korean " +
        "multinational " + "electronics " + "company.",
        "Technology", true, 20),
      Brand("8", "Target",
        "https://" + "images.pexels.co" + "m/photos/" + "4199098/" +
        "pexels-photo-419" + "9098.jpeg?" + "auto=compress&" + "cs=tinysrgb&" +
        "w=1260&h=750&" + "dpr=1",
        "Target " + "Corporation is " + "an American " + "retail " +
        "corporation.",
        "Retail", false, 25)
    ]
  }

  function Coupons(): seq<Coupon>
  {
    [
      Coupon("1", "1", "NIKE25OFF",
        "25% off on all " + "Nike products",
        25, "2025-12-31",
        "Cannot be " + "combined with " + "other offers. " + "Valid on " +
        "regular-priced " + "items only.",
        "2024-06-01"),
      Coupon("2", "1", "NIKESHOES15",
        "15% off on Nike " + "shoes",
        15, "2025-08-31",
        "Valid only on " + "footwear. " + "Cannot be " + "combined with " +
        "other offers.",
        "2024-06-01"),
      Coupon("3", "2", "APPLE15",
        "15% off on " + "Apple " + "accessories",
        15, "2025-10-31",
        "Valid on " + "accessories " + "only. Not valid " + "on hardware " +
        "products.",
        "2024-06-01"),
      Coupon("4", "3", "SBUX20",
        "20% off on all " + "Starbucks drinks",
        20, "2025-07-31",
        "Valid on all " + "beverages. Not " + "valid on food " + "items.",
        "2024-06-01"),
      Coupon("5", "4", "AMZN10",
        "10% off on " + "Amazon " + "electronics",
        10, "2025-09-30",
        "Valid on " + "electronics " + "category only. " + "Maximum " +
        "discount $50.",
        "2024-06-01"),
      Coupon("6", "5", "ADIDAS30",
        "30% off on all " + "Adidas products",
        30, "2025-08-15",
        "Cannot be " + "combined with " + "other offers. " + "Valid on " +
        "regular-priced " + "items only.",
        "2024-06-01"),
      Coupon("7", "6", "MCD15",
        "15% off on " + "McDonald's meals",
        15, "2025-07-15",
        "Valid on combo " + "meals only. Not " + "valid on " + "promotional " +
        "items.",
        "2024-06-01"),
      Coupon("8", "7", "SAMSUNG20",
        "20% off on " + "Samsung phones",
        20, "2025-11-30",
        "Valid on select " + "smartphone " + "models. Cannot " +
        "be combined " + "with other " + "offers.",
        "2024-06-01"),
      Coupon("9", "8", "TARGET25",
        "25% off on " + "Target home " + "goods",
        25, "2025-09-15",
        "Valid on home " + "department " + "items only. " + "Maximum " +
        "discount $100.",
        "2024-06-01"),
      Coupon("10", "2", "APPLECARE10",
        "10% off on " + "AppleCare+",
        10, "2025-12-15",
        "Valid on new " + "AppleCare+ " + "purchases only.",
        "2024-06-01")
    ]
  }

  /** The mock user directory that login, register and forgot-password consult. */
  function Users(): seq<User>
  {
    [
      User("1", "John Doe", "john@example.com", "password123",
        ["1", "3", "5"], "2024-01-15"),
      User("2", "Jane Smith", "jane@example.com", "password456",
        ["2", "4", "6"], "2024-02-20")
    ]
  }

  function Categories(): seq<string>
  {
    ["All", "Fashion", "Technology", "Food & Beverage", "Retail", "Travel", "Entertainment"]
  }

  /** The coupons of one brand, in table order. */
  function CouponsOfBrand(coupons: seq<Coupon>, brandId: string): (r: seq<Coupon>)
    ensures forall c :: c in r <==> c in coupons && c.brandId == brandId
    ensures forall c :: multiset(r)[c] == if c.brandId == brandId then multiset(coupons)[c] else 0
    ensures IsSubsequence(r, coupons)
  {
    Filter((c: Coupon) => c.brandId == brandId, coupons)
  }

  /** The first brand carrying `brandId`, or None when no brand does. */
  function BrandWithId(brands: seq<Brand>, brandId: string): (r: Option<Brand>)
    ensures r.None? <==> forall i :: 0 <= i < |brands| ==> brands[i].id != brandId
    ensures r.Some? ==> exists i :: 0 <= i < |brands| && brands[i] == r.value && brands[i].id == brandId &&
                          forall j :: 0 <= j < i ==> brands[j].id != brandId
  {
    First((b: Brand) => b.id == brandId, brands)
  }

  /** The featured brands, in table order. */
  function Featured(brands: seq<Brand>): (r: seq<Brand>)
    ensures forall b :: b in r <==> b in brands && b.featured
    ensures forall b :: multiset(r)[b] == if b.featured then multiset(brands)[b] else 0
    ensures IsSubsequence(r, brands)
  {
    Filter((b: Brand) => b.featured, brands)
  }

  /** The coupons of the table whose id occurs in `saved`, in table order. */
  function CouponsSavedIn(saved: seq<string>, coupons: seq<Coupon>): (r: seq<Coupon>)
    ensures forall c :: c in r <==> c in coupons && c.id in saved
    ensures forall c :: multiset(r)[c] == if c.id in saved then multiset(coupons)[c] else 0
    ensures IsSubsequence(r, coupons)
  {
    Filter((c: Coupon) => c.id in saved, coupons)
  }

  /** The saved coupons of the first directory entry with `userId`; none for an unknown id. */
  function SavedCouponsOf(users: seq<User>, coupons: seq<Coupon>, userId: string): (r: seq<Coupon>)
    ensures (forall i :: 0 <= i < |users| ==> users[i].id != userId) ==> r == []
    ensures forall i :: 0 <= i < |users| && users[i].id == userId && (forall j :: 0 <= j < i ==> users[j].id != userId) ==>
              r == CouponsSavedIn(users[i].savedCoupons, coupons)
  {
    var found := First((u: User) => u.id == userId, users);
    if found.None? then []
    else
      var k :| 0 <= k < |users| && users[k] == found.value && users[k].id == userId &&
               forall j :: 0 <= j < k ==> users[j].id != userId;
      assert forall i :: 0 <= i < |users| && users[i].id == userId && (forall j :: 0 <= j < i ==> users[j].id != userId) ==> i == k;
      CouponsSavedIn(found.value.savedCoupons, coupons)
  }

  /** Only which ids are saved matters: their order and repetitions do not. */
  lemma {:induction false} SavedInIgnoresOrderAndRepeats(s1: seq<string>, s2: seq<string>, coupons: seq<Coupon>)
    requires forall x :: x in s1 <==> x in s2
    ensures CouponsSavedIn(s1, coupons) == CouponsSavedIn(s2, coupons)
    decreases |coupons|
  {
    if coupons != [] {
      SavedInIgnoresOrderAndRepeats(s1, s2, coupons[1..]);
    }
  }

  // The exported lookups, over the tables above.

  function GetCouponsByBrandId(brandId: string): seq<Coupon> {
    CouponsOfBrand(Coupons(), brandId)
  }

  function GetBrandById(brandId: string): Option<Brand> {
    BrandWithId(Brands(), brandId)
  }

  function GetFeaturedBrands(): seq<Brand> {
    Featured(Brands())
  }

  /** Reads the static directory, never the current session. */
  function GetUserSavedCoupons(userId: string): seq<Coupon> {
    SavedCouponsOf(Users(), Coupons(), userId)
  }

  /** Brand ids are unique in the table as written. */
  lemma BrandIdsUnique()
    ensures forall i, j :: 0 <= i < j < |Brands()| ==> Brands()[i].id != Brands()[j].id
  {
  }

  /** Coupon ids are unique in the table as written. */
  lemma CouponIdsUnique()
    ensures forall i, j :: 0 <= i < j < |Coupons()| ==> Coupons()[i].id != Coupons()[j].id
  {
  }

  /** Every coupon names a brand of the table. */
  lemma CouponBrandsExist()
    ensures forall i :: 0 <= i < |Coupons()| ==> GetBrandById(Coupons()[i].brandId).Some?
  {
    var owner := [0, 0, 1, 2, 3, 4, 5, 6, 7, 1];
    forall i | 0 <= i < |Coupons()| ensures GetBrandById(Coupons()[i].brandId).Some? {
      assert Brands()[owner[i]].id == Coupons()[i].brandId;
    }
  }

  /** The category list starts with "All" and lists the category of every brand. */
  lemma CategoriesCoverBrands()
    ensures Categories()[0] == "All"
    ensures forall i :: 0 <= i < |Brands()| ==> Brands()[i].category in Categories()
  {
  }
}
