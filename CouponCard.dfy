/** The rules of one coupon card: which callback the save/remove toggle calls,
    when the toggle and the copy button are usable, and which brand is shown.
    Whether the coupon is expired is an input (it compares its validity date
    with the clock). */
module CouponCard {
  import opened Types
  import Catalog

  /** What a click on the save/remove toggle does: call `onRemove` or `onSave` with the
      coupon id, or nothing. */
  datatype ToggleCall = CallRemove(couponId: string) | CallSave(couponId: string) | NoCall

  /** `handleSaveToggle`; `hasOnRemove` / `hasOnSave` say whether the callback props were given. */
  function HandleSaveToggle(isSaved: bool, hasOnRemove: bool, hasOnSave: bool, couponId: string): (r: ToggleCall)
    ensures r.CallRemove? <==> isSaved && hasOnRemove
    ensures r.CallSave? <==> !isSaved && hasOnSave
    ensures r.NoCall? <==> (isSaved && !hasOnRemove) || (!isSaved && !hasOnSave)
    ensures !r.NoCall? ==> r.couponId == couponId
  {
    if isSaved && hasOnRemove then CallRemove(couponId)
    else if !isSaved && hasOnSave then CallSave(couponId)
    else NoCall
  }

  /** The save/remove button is rendered for a signed-in user and a coupon still valid. */
  predicate ShowSaveButton(isAuthenticated: bool, isExpired: bool) {
    isAuthenticated && !isExpired
  }

  /** The copy button is disabled once the coupon has expired. */
  predicate CopyDisabled(isExpired: bool) {
    isExpired
  }

  /** An expired coupon's card offers neither saving nor copying; an active one always allows
      copying and offers saving exactly to a signed-in user. */
  lemma ExpiredCardIsReadOnly(isAuthenticated: bool, isExpired: bool)
    ensures isExpired ==> !ShowSaveButton(isAuthenticated, isExpired) && CopyDisabled(isExpired)
    ensures !isExpired ==> !CopyDisabled(isExpired) && (ShowSaveButton(isAuthenticated, isExpired) <==> isAuthenticated)
  {
  }

  /** The brand shown: the `brand` prop when given, else the table entry for the coupon's brand.
      Without the prop a brand is found exactly when the table has the coupon's brand id, and
      it is a table brand carrying that id. */
  function DisplayedBrand(propBrand: Option<Brand>, coupon: Coupon, brands: seq<Brand>): (r: Option<Brand>)
    ensures propBrand.Some? ==> r == propBrand
    ensures propBrand.None? ==> (r.Some? <==> exists i :: 0 <= i < |brands| && brands[i].id == coupon.brandId)
    ensures propBrand.None? && r.Some? ==> r.value in brands && r.value.id == coupon.brandId
  {
    if propBrand.Some? then propBrand else Catalog.BrandWithId(brands, coupon.brandId)
  }

  /** The brand header is rendered when `showBrand` is set and a brand was found. */
  predicate ShowBrandHeader(showBrand: bool, brand: Option<Brand>) {
    showBrand && brand.Some?
  }

  /** The brand header appears exactly when `showBrand` is set and either the prop is given
      or the table has the coupon's brand. */
  lemma BrandHeaderShown(showBrand: bool, propBrand: Option<Brand>, coupon: Coupon, brands: seq<Brand>)
    ensures ShowBrandHeader(showBrand, DisplayedBrand(propBrand, coupon, brands)) <==>
              showBrand && (propBrand.Some? || exists i :: 0 <= i < |brands| && brands[i].id == coupon.brandId)
  {
  }

  /** A card for any coupon of the table finds its brand without the prop. */
  lemma TableCouponsShowBrand(i: nat)
    requires i < |Catalog.Coupons()|
    ensures DisplayedBrand(None, Catalog.Coupons()[i], Catalog.Brands()).Some?
    ensures DisplayedBrand(None, Catalog.Coupons()[i], Catalog.Brands()).value.id == Catalog.Coupons()[i].brandId
  {
    Catalog.CouponBrandsExist();
  }
}
