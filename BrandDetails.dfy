/** The brand detail page: the brand named by the route, its coupons, up to
    three similar brands, and which of its coupons the session has saved. */
module BrandDetails {
  import opened Types
  import opened Seqs
  import Catalog
  import Auth
  import CouponCard

  /** The other brands of the found brand's category, in table order. */
  function SameCategoryOthers(brands: seq<Brand>, found: Brand): (r: seq<Brand>)
    ensures forall b :: b in r <==> b in brands && b.category == found.category && b.id != found.id
    ensures forall b :: multiset(r)[b] == if b.category == found.category && b.id != found.id then multiset(brands)[b] else 0
    ensures IsSubsequence(r, brands)
  {
    Filter((b: Brand) => b.category == found.category && b.id != found.id, brands)
  }

  /** The "similar brands": the first three other brands of the same category. */
  function RelatedBrands(brands: seq<Brand>, found: Brand): (r: seq<Brand>)
    ensures |r| == if |SameCategoryOthers(brands, found)| < 3 then |SameCategoryOthers(brands, found)| else 3
    ensures forall i :: 0 <= i < |r| ==> r[i] == SameCategoryOthers(brands, found)[i]
    ensures forall b :: b in r ==> b in brands && b.category == found.category && b.id != found.id
    ensures found !in r
    ensures IsSubsequence(r, brands)
  {
    var others := SameCategoryOthers(brands, found);
    var r := Take(others, 3);
    assert r == others[..|r|];
    PrefixIsSubsequence(others, |r|);
    SubsequenceTransitive(r, others, brands);
    r
  }

  /** `isCouponSaved`: a user is signed in and has the coupon among their bookmarks. */
  predicate IsCouponSaved(user: Option<User>, couponId: string) {
    user.Some? && couponId in user.value.savedCoupons
  }

  /** A bookmark saved through the session shows as saved exactly when someone is signed in;
      one removed through it never does. */
  lemma SavedFlagFollowsSession(user: Option<User>, couponId: string)
    ensures IsCouponSaved(Auth.AfterSave(user, couponId), couponId) <==> user.Some?
    ensures !IsCouponSaved(Auth.AfterRemove(user, couponId), couponId)
  {
  }

  /** What the page does when a card's toggle calls back into the session (`onSave` is
      `saveCoupon`, `onRemove` is `removeSavedCoupon`): a click never signs anyone in or
      out and changes nothing but the bookmarks. */
  function ApplyCall(call: CouponCard.ToggleCall, user: Option<User>): (r: Option<User>)
    ensures r.Some? <==> user.Some?
    ensures r.Some? ==> r.value.(savedCoupons := user.value.savedCoupons) == user.value
    ensures call.NoCall? ==> r == user
    ensures call.CallSave? && user.Some? ==> IsCouponSaved(r, call.couponId)
    ensures call.CallRemove? ==> !IsCouponSaved(r, call.couponId)
  {
    match call
    case CallSave(id) => Auth.AfterSave(user, id)
    case CallRemove(id) => Auth.AfterRemove(user, id)
    case NoCall => user
  }

  /** On this page every card gets both callbacks and `isSaved` from the session: the first
      click on an unsaved coupon saves it, the second removes it, and the session is back
      where it started. */
  lemma ToggleTwiceRestores(u: User, couponId: string)
    requires couponId !in u.savedCoupons
    ensures var s0 := Some(u);
            var c1 := CouponCard.HandleSaveToggle(IsCouponSaved(s0, couponId), true, true, couponId);
            var s1 := ApplyCall(c1, s0);
            var c2 := CouponCard.HandleSaveToggle(IsCouponSaved(s1, couponId), true, true, couponId);
            c1 == CouponCard.CallSave(couponId) && IsCouponSaved(s1, couponId) &&
            c2 == CouponCard.CallRemove(couponId) && ApplyCall(c2, s1) == s0
  {
    Auth.SessionSaveThenRemove(Some(u), couponId);
  }

  class BrandDetailsView {
    /** The tables the page imports. */
    const brandTable: seq<Brand>
    const couponTable: seq<Coupon>
    var brand: Option<Brand>
    var coupons: seq<Coupon>
    var loading: bool
    var relatedBrands: seq<Brand>
    /** The route the page navigated to, if it did. */
    var redirect: Option<string>

    constructor ()
      ensures brandTable == Catalog.Brands() && couponTable == Catalog.Coupons()
      ensures brand == None && coupons == [] && loading && relatedBrands == [] && redirect == None
    {
      brandTable := Catalog.Brands();
      couponTable := Catalog.Coupons();
      brand := None;
      coupons := [];
      loading := true;
      relatedBrands := [];
      redirect := None;
    }

    /** The effect that runs for the route parameter `id` ("" when it is missing). */
    method Load(id: string)
      modifies this`brand, this`coupons, this`loading, this`relatedBrands, this`redirect
      ensures id == "" ==> brand == old(brand) && coupons == old(coupons) && loading == old(loading) &&
                           relatedBrands == old(relatedBrands) && redirect == old(redirect)
      ensures id != "" && Catalog.BrandWithId(brandTable, id).None? ==>
                redirect == Some("/not-found") && brand == old(brand) && coupons == old(coupons) &&
                loading == old(loading) && relatedBrands == old(relatedBrands)
      ensures id != "" && Catalog.BrandWithId(brandTable, id).Some? ==>
                && brand == Catalog.BrandWithId(brandTable, id)
                && brand.value.id == id
                && coupons == Catalog.CouponsOfBrand(couponTable, id)
                && relatedBrands == RelatedBrands(brandTable, brand.value)
                && !loading && redirect == old(redirect)
    {
      if id == "" {
        return;
      }
      var found := Catalog.BrandWithId(brandTable, id);
      if found.None? {
        redirect := Some("/not-found");
        return;
      }
      brand := found;
      coupons := Catalog.CouponsOfBrand(couponTable, id);
      relatedBrands := RelatedBrands(brandTable, found.value);
      loading := false;
    }
  }
}
