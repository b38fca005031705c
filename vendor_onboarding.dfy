/**
 * Vendor onboarding (pages/VendorOnboarding.tsx): three form steps, a
 * submit that starts a simulated verification, and the timer that ends it
 * by listing the new vendor and showing the welcome step 4.
 */
module VendorOnboarding {
  import opened Wrappers
  import opened Strings
  import opened Types
  import opened EventContext
  import opened VendorMarketplace

  /**
   * `formData`. The page has no input for the location, and none for the price
   * level, which stays at its initial `'2'`; the description is unset until typed.
   */
  datatype OnboardingForm = OnboardingForm(
    businessName: string,
    category: VendorCategory,
    priceLevel: PriceLevel,
    isEcoFriendly: bool,
    location: Option<string>,
    description: Option<string>)

  const INITIAL_FORM := OnboardingForm("", Venue, 2, false, None, None)

  const VENDOR_IMAGE := "https://images.unsplash.com/photo-1519167758481-83f550bb49b3"

  /** `x || fallback` for an optional string: unset and empty both give the fallback. */
  function OrDefault(x: Option<string>, fallback: string): (r: string)
    ensures r == fallback <==> x.None? || x.value == "" || x.value == fallback
    ensures r != fallback ==> x == Some(r)
  {
    if x.Some? && x.value != "" then x.value else fallback
  }

  /** The vendor the verification timer adds. */
  function NewVendor(form: OnboardingForm, id: string): (v: Vendor)
    ensures v.id == id && v.name == form.businessName && v.category == form.category
    ensures v.rating == 5.0 && v.verified == Some(true) && v.ownerId.None?
    ensures v.priceLevel == form.priceLevel && v.isEcoFriendly == form.isEcoFriendly
    ensures v.location == OrDefault(form.location, "Mumbai")
    ensures v.description == OrDefault(form.description, "New vendor")
  {
    Vendor(id, form.businessName, form.category, 5.0, form.priceLevel, form.isEcoFriendly,
           OrDefault(form.location, "Mumbai"), VENDOR_IMAGE,
           OrDefault(form.description, "New vendor"), Some(true), None)
  }

  /** Since the page never sets a location, every vendor it onboards is placed in Mumbai. */
  lemma OnboardedVendorsAreInMumbai(form: OnboardingForm, id: string)
    requires form.location.None?
    ensures NewVendor(form, id).location == "Mumbai"
    ensures MatchesSearch(NewVendor(form, id), "mumbai")
  {
    var v := NewVendor(form, id);
    assert ToLower(v.location) == "mumbai";
    assert OccursAt(ToLower(v.location), ToLower("mumbai"), 0);
  }

  /** The new vendor is found by searching for its own business name, under its own category. */
  lemma NewVendorFoundByName(form: OnboardingForm, id: string, vendors: seq<Vendor>)
    ensures NewVendor(form, id) in
      FilteredVendors([NewVendor(form, id)] + vendors, form.businessName, CategoryName(form.category), false)
  {
    var v := NewVendor(form, id);
    assert OccursAt(ToLower(v.name), ToLower(form.businessName), 0);
  }

  class Onboarding {
    var step: int
    var form: OnboardingForm
    var isVerifying: bool
    /** The form as it was when Submit was pressed: the timer's closure captured it. */
    var submitted: OnboardingForm

    /** Steps 1 to 3 are the form, 4 the welcome page, which is never shown while verifying. */
    predicate Valid()
      reads this
    {
      1 <= step <= 4 && (step == 4 ==> !isVerifying)
    }

    constructor ()
      ensures Valid() && step == 1 && form == INITIAL_FORM && !isVerifying
      ensures submitted == INITIAL_FORM
    {
      step := 1;
      form := INITIAL_FORM;
      isVerifying := false;
      submitted := INITIAL_FORM;
    }

    /** The inputs of step 1. */
    method EditBusiness(name: string, category: VendorCategory)
      requires Valid() && step == 1
      modifies this
      ensures Valid() && step == 1 && isVerifying == old(isVerifying) && submitted == old(submitted)
      ensures form == old(form).(businessName := name, category := category)
    {
      form := form.(businessName := name, category := category);
    }

    /** The inputs of step 2. */
    method EditDetails(description: string, isEcoFriendly: bool)
      requires Valid() && step == 2
      modifies this
      ensures Valid() && step == 2 && isVerifying == old(isVerifying) && submitted == old(submitted)
      ensures form == old(form).(description := Some(description), isEcoFriendly := isEcoFriendly)
    {
      form := form.(description := Some(description), isEcoFriendly := isEcoFriendly);
    }

    /** Next on steps 1 and 2. */
    method Next()
      requires Valid() && (step == 1 || step == 2)
      modifies this
      ensures Valid() && step == old(step) + 1
      ensures form == old(form) && isVerifying == old(isVerifying) && submitted == old(submitted)
    {
      step := step + 1;
    }

    /** Back on steps 2 and 3; it is not disabled while verifying. */
    method Back()
      requires Valid() && (step == 2 || step == 3)
      modifies this
      ensures Valid() && step == old(step) - 1
      ensures form == old(form) && isVerifying == old(isVerifying) && submitted == old(submitted)
    {
      step := step - 1;
    }

    /**
     * Submit on step 3, offered only while no verification is running. The
     * timer it starts lists the form of this moment, whatever is edited later.
     */
    method Submit()
      requires Valid() && step == 3 && !isVerifying
      modifies this
      ensures Valid() && isVerifying && step == 3 && form == old(form)
      ensures submitted == form
    {
      isVerifying := true;
      submitted := form;
    }

    /** The verification timer fires: the vendor is listed and the welcome step is shown. */
    method VerificationDone(store: EventStore, id: string)
      requires Valid() && isVerifying
      modifies this, store
      ensures Valid() && step == 4 && !isVerifying && form == old(form) && submitted == old(submitted)
      ensures store.vendors == [NewVendor(old(submitted), id)] + old(store.vendors)
      ensures store.events == old(store.events)
    {
      store.AddVendor(NewVendor(submitted, id));
      step := 4;
      isVerifying := false;
    }
  }
}
