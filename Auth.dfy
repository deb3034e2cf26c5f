/** The session and bookmark manager: one slot holding the signed-in user (or
    none), mirrored in the browser storage entry 'user'. All operations run
    against the static user directory `Catalog.Users()`.

    The storage entry is the field `stored`; serialising a record and reading
    it back is taken to give the same record. Simulated network delays are
    dropped: every operation completes atomically. */
module Auth {
  import opened Types
  import opened Seqs
  import Text
  import Catalog

  /** The bookmark list `saveCoupon` leaves: unchanged when the id is present, else the id appended. */
  function AddSaved(saved: seq<string>, couponId: string): (r: seq<string>)
    ensures couponId in r
    ensures forall x :: x in r <==> x in saved || x == couponId
    ensures couponId in saved ==> r == saved
    ensures couponId !in saved ==> |r| == |saved| + 1 && r[..|saved|] == saved && r[|saved|] == couponId
  {
    if couponId in saved then saved else saved + [couponId]
  }

  /** The bookmark list `removeSavedCoupon` leaves: every occurrence of the id dropped, the rest kept in order. */
  function RemoveSaved(saved: seq<string>, couponId: string): (r: seq<string>)
    ensures couponId !in r
    ensures forall x :: x != couponId ==> (x in r <==> x in saved)
    ensures forall x :: x != couponId ==> multiset(r)[x] == multiset(saved)[x]
    ensures IsSubsequence(r, saved)
  {
    Filter((x: string) => x != couponId, saved)
  }

  /** Saving never introduces a duplicate bookmark. */
  lemma AddSavedNoDup(saved: seq<string>, couponId: string)
    requires NoDup(saved)
    ensures NoDup(AddSaved(saved, couponId))
  {
    if couponId !in saved {
      AppendNoDup(saved, couponId);
    }
  }

  /** Removing never introduces a duplicate bookmark. */
  lemma RemoveSavedNoDup(saved: seq<string>, couponId: string)
    requires NoDup(saved)
    ensures NoDup(RemoveSaved(saved, couponId))
  {
    FilterNoDup((x: string) => x != couponId, saved);
  }

  /** Removing an id that is not bookmarked changes nothing. */
  lemma RemoveAbsentIsNoop(saved: seq<string>, couponId: string)
    requires couponId !in saved
    ensures RemoveSaved(saved, couponId) == saved
  {
    FilterKeepsAll((x: string) => x != couponId, saved);
  }

  /** Saving an id that was not bookmarked and then removing it restores the list. */
  lemma SaveThenRemove(saved: seq<string>, couponId: string)
    requires couponId !in saved
    ensures RemoveSaved(AddSaved(saved, couponId), couponId) == saved
  {
    var p := (x: string) => x != couponId;
    FilterConcat(p, saved, [couponId]);
    FilterKeepsAll(p, saved);
    assert Filter(p, [couponId]) == [];
  }

  /** Removing twice is removing once. */
  lemma RemoveIdempotent(saved: seq<string>, couponId: string)
    ensures RemoveSaved(RemoveSaved(saved, couponId), couponId) == RemoveSaved(saved, couponId)
  {
    RemoveAbsentIsNoop(RemoveSaved(saved, couponId), couponId);
  }

  /** The session `saveCoupon` leaves: nothing happens when logged out or when the coupon is
      already bookmarked; otherwise only the bookmarks change, by the id appended at the end. */
  function AfterSave(user: Option<User>, couponId: string): (r: Option<User>)
    ensures user.None? || couponId in user.value.savedCoupons ==> r == user
    ensures r.Some? <==> user.Some?
    ensures r.Some? ==> couponId in r.value.savedCoupons
    ensures r.Some? ==> r.value.(savedCoupons := user.value.savedCoupons) == user.value
    ensures r.Some? && couponId !in user.value.savedCoupons ==>
              r.value.savedCoupons == user.value.savedCoupons + [couponId]
  {
    if user.None? then None else Some(user.value.(savedCoupons := AddSaved(user.value.savedCoupons, couponId)))
  }

  /** The session `removeSavedCoupon` leaves: nothing happens when logged out; otherwise only
      the bookmarks change, losing the id and keeping every other one. */
  function AfterRemove(user: Option<User>, couponId: string): (r: Option<User>)
    ensures user.None? ==> r == user
    ensures r.Some? <==> user.Some?
    ensures r.Some? ==> couponId !in r.value.savedCoupons
    ensures r.Some? ==> r.value.(savedCoupons := user.value.savedCoupons) == user.value
    ensures r.Some? ==> forall x :: x != couponId ==> (x in r.value.savedCoupons <==> x in user.value.savedCoupons)
    ensures r.Some? ==> IsSubsequence(r.value.savedCoupons, user.value.savedCoupons)
  {
    if user.None? then None else Some(user.value.(savedCoupons := RemoveSaved(user.value.savedCoupons, couponId)))
  }

  /** Saving a coupon that is not bookmarked and then removing it gives back the session. */
  lemma SessionSaveThenRemove(user: Option<User>, couponId: string)
    requires user.Some? ==> couponId !in user.value.savedCoupons
    ensures AfterRemove(AfterSave(user, couponId), couponId) == user
  {
    if user.Some? {
      SaveThenRemove(user.value.savedCoupons, couponId);
    }
  }

  /** The directory lookup of `login`: the first entry with this email and password. */
  function FindByCredentials(directory: seq<User>, email: string, password: string): (r: Option<User>)
    ensures r.None? <==> forall i :: 0 <= i < |directory| ==> !(directory[i].email == email && directory[i].password == password)
    ensures r.Some? ==> exists i :: 0 <= i < |directory| && directory[i] == r.value &&
                          directory[i].email == email && directory[i].password == password &&
                          forall j :: 0 <= j < i ==> !(directory[j].email == email && directory[j].password == password)
  {
    First((u: User) => u.email == email && u.password == password, directory)
  }

  /** The directory check of `register` and `forgotPassword`: some entry has this email. */
  function EmailTaken(directory: seq<User>, email: string): (b: bool)
    ensures b <==> exists i :: 0 <= i < |directory| && directory[i].email == email
  {
    Any((u: User) => u.email == email, directory)
  }

  class AuthContext {
    /** The signed-in user, or None when logged out. */
    var user: Option<User>
    /** The storage entry 'user' (None when the key is absent). */
    var stored: Option<User>
    /** True until the stored session has been read. */
    var loading: bool

    /** The stored copy always equals the in-memory user. */
    ghost predicate Valid()
      reads this
    {
      stored == user
    }

    /** The provider mounting and its restore effect: the user becomes the stored record, if any. */
    constructor (storage: Option<User>)
      ensures Valid()
      ensures stored == storage && user == storage
      ensures IsAuthenticated() <==> storage.Some?
      ensures !loading
    {
      user := None;
      loading := true;
      stored := storage;
      if storage.Some? {
        user := storage;
      }
      loading := false;
    }

    /** `isAuthenticated`, which is `!!user`. */
    function IsAuthenticated(): bool
      reads this
    {
      user.Some?
    }

    method Login(email: string, password: string) returns (ok: bool)
      requires Valid()
      modifies this`user, this`stored
      ensures Valid()
      ensures ok <==> exists i :: 0 <= i < |Catalog.Users()| &&
                        Catalog.Users()[i].email == email && Catalog.Users()[i].password == password
      ensures ok ==> user == FindByCredentials(Catalog.Users(), email, password) && IsAuthenticated()
      ensures !ok ==> user == old(user) && stored == old(stored)
    {
      var found := FindByCredentials(Catalog.Users(), email, password);
      if found.Some? {
        user := found;
        stored := found;
        return true;
      }
      return false;
    }

    method Register(name: string, email: string, password: string, now: string) returns (ok: bool)
      requires Valid()
      modifies this`user, this`stored
      ensures Valid()
      ensures ok <==> forall i :: 0 <= i < |Catalog.Users()| ==> Catalog.Users()[i].email != email
      ensures ok ==> user == Some(User(Text.NatToString(|Catalog.Users()| + 1), name, email, password, [], now))
      ensures ok ==> IsAuthenticated() && user.value.savedCoupons == []
      ensures !ok ==> user == old(user) && stored == old(stored)
    {
      if EmailTaken(Catalog.Users(), email) {
        return false;
      }
      // The new user is not added to the directory.
      var newUser := User(Text.NatToString(|Catalog.Users()| + 1), name, email, password, [], now);
      user := Some(newUser);
      stored := Some(newUser);
      return true;
    }

    method Logout()
      requires Valid()
      modifies this`user, this`stored
      ensures Valid()
      ensures user == None && stored == None
      ensures !IsAuthenticated()
    {
      user := None;
      stored := None;
    }

    method SaveCoupon(couponId: string)
      requires Valid()
      modifies this`user, this`stored
      ensures Valid()
      ensures user == AfterSave(old(user), couponId)
      ensures IsAuthenticated() == old(IsAuthenticated())
      ensures old(user).Some? && NoDup(old(user).value.savedCoupons) ==> NoDup(user.value.savedCoupons)
    {
      if user.None? {
        return;
      }
      var u := user.value;
      if couponId in u.savedCoupons {
        // Already saved: only a notification, no change.
        return;
      }
      var updated := u.(savedCoupons := u.savedCoupons + [couponId]);
      assert NoDup(u.savedCoupons) ==> NoDup(updated.savedCoupons) by {
        if NoDup(u.savedCoupons) { AddSavedNoDup(u.savedCoupons, couponId); }
      }
      user := Some(updated);
      stored := Some(updated);
    }

    method RemoveSavedCoupon(couponId: string)
      requires Valid()
      modifies this`user, this`stored
      ensures Valid()
      ensures user == AfterRemove(old(user), couponId)
      ensures IsAuthenticated() == old(IsAuthenticated())
      ensures old(user).Some? && NoDup(old(user).value.savedCoupons) ==> NoDup(user.value.savedCoupons)
    {
      if user.None? {
        return;
      }
      var u := user.value;
      var updated := u.(savedCoupons := RemoveSaved(u.savedCoupons, couponId));
      assert NoDup(u.savedCoupons) ==> NoDup(updated.savedCoupons) by {
        if NoDup(u.savedCoupons) { RemoveSavedNoDup(u.savedCoupons, couponId); }
      }
      user := Some(updated);
      stored := Some(updated);
    }

    method UpdateUserInfo(name: string, email: string) returns (ok: bool)
      requires Valid()
      modifies this`user, this`stored
      ensures Valid()
      ensures ok <==> old(user).Some?
      ensures IsAuthenticated() == old(IsAuthenticated())
      ensures !ok ==> user == old(user) && stored == old(stored)
      ensures ok ==> user.Some? && user.value.name == name && user.value.email == email
      ensures ok ==> user.value.id == old(user).value.id && user.value.password == old(user).value.password &&
                     user.value.savedCoupons == old(user).value.savedCoupons &&
                     user.value.createdAt == old(user).value.createdAt
    {
      if user.None? {
        return false;
      }
      var updated := user.value.(name := name, email := email);
      user := Some(updated);
      stored := Some(updated);
      return true;
    }

    /** Checks the directory and reports; it never changes the session or the stored entry. */
    method ForgotPassword(email: string) returns (ok: bool)
      ensures ok <==> exists i :: 0 <= i < |Catalog.Users()| && Catalog.Users()[i].email == email
    {
      return EmailTaken(Catalog.Users(), email);
    }
  }

  /** A second logout leaves the state the first one left. */
  method LogoutTwice(a: AuthContext)
    requires a.Valid()
    modifies a`user, a`stored
    ensures a.Valid() && a.user == None && a.stored == None
  {
    a.Logout();
    ghost var once := (a.user, a.stored);
    a.Logout();
    assert (a.user, a.stored) == once;
  }

  /** Saving a coupon that was not saved and then removing it restores user and storage. */
  method SaveThenRemoveCoupon(a: AuthContext, couponId: string)
    requires a.Valid()
    requires a.user.Some? ==> couponId !in a.user.value.savedCoupons
    modifies a`user, a`stored
    ensures a.Valid() && a.user == old(a.user) && a.stored == old(a.stored)
  {
    a.SaveCoupon(couponId);
    a.RemoveSavedCoupon(couponId);
    SessionSaveThenRemove(old(a.user), couponId);
  }

  /** The directory's first account signs in with its password and not with another one. */
  method LoginScenario() returns (okRight: bool, name: string, okWrong: bool)
    ensures okRight && name == "John Doe"
    ensures !okWrong
  {
    var a := new AuthContext(None);
    okWrong := a.Login("john@example.com", "wrong");
    assert Catalog.Users()[1].email != "john@example.com";
    var john := Catalog.Users()[0];
    assert john.email == "john@example.com" && john.password == "password123";
    okRight := a.Login("john@example.com", "password123");
    assert a.user == Some(john);
    name := a.user.value.name;
  }

  /** Registration checks only the static directory, so the same new email registers twice,
      and both accounts get the id "3". */
  method RegisterScenario() returns (first: bool, second: bool, id: string)
    ensures first && second && id == "3"
  {
    var a := new AuthContext(None);
    first := a.Register("Ann", "ann@x.com", "pw", "2024-06-01");
    second := a.Register("Bob", "ann@x.com", "pw2", "2024-06-02");
    id := a.user.value.id;
  }

  /** A freshly registered id is unknown to the directory, so its directory bookmarks are empty. */
  lemma RegisteredIdHasNoDirectoryBookmarks()
    ensures Catalog.GetUserSavedCoupons(Text.NatToString(|Catalog.Users()| + 1)) == []
  {
    assert Text.NatToString(|Catalog.Users()| + 1) == "3";
  }
}
