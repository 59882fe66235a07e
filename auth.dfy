/**
 * The authentication and subscription state held by the app's auth provider:
 * the date-driven trial / active / expired life cycle and the session state
 * (signed-in user, stored token) that the provider keeps in device storage.
 * Time is milliseconds since the epoch, passed in by the caller.
 */
module Auth {
  import opened Wrappers

  /** One day in milliseconds. */
  const DAY: int := 24 * 60 * 60 * 1000
  /** Length of the free trial. */
  const TRIAL_DAYS: int := 30
  /** Distance from profile creation to the hard expiry of the first subscription period. */
  const FIRST_EXPIRY_DAYS: int := 60
  /** Length of the period a renewal buys. */
  const RENEWAL_DAYS: int := 30
  /** Monthly price, in naira. */
  const PRICE: int := 500
  const CURRENCY: string := "NGN"

  /** The stored `status` string; `Other` stands for any string besides the three named ones. */
  datatype Status = Trial | Active | Expired | Other

  /**
   * The stored subscription record. Fields the source may leave undefined (a renewal
   * spreads over a missing subscription) are optional.
   */
  datatype Subscription = Subscription(
    status: Status,
    trialStartDate: Option<int>,
    trialEndDate: Option<int>,
    subscriptionEndDate: int,
    price: Option<int>,
    currency: Option<string>,
    lastPaymentDate: Option<int>)

  /**
   * `now > new Date(date)`: a missing date becomes an Invalid Date, against which
   * every comparison is false.
   */
  predicate After(now: int, date: Option<int>)
  {
    date.Some? && now > date.value
  }

  /** `now <= new Date(date)`, again false for a missing date. */
  predicate NotAfter(now: int, date: Option<int>)
  {
    date.Some? && now <= date.value
  }

  /**
   * The recompute rule applied when the stored subscription is loaded: past the hard
   * end it is expired whatever it was; a trial past its trial end (but not past the
   * hard end) becomes active; anything else keeps its status.
   */
  function Recompute(s: Subscription, now: int): (r: Subscription)
    ensures r == s.(status := r.status)
    ensures r.status == Expired <==> now > s.subscriptionEndDate || s.status == Expired
    ensures r.status == Active <==>
      now <= s.subscriptionEndDate && (s.status == Active || (s.status == Trial && After(now, s.trialEndDate)))
    ensures r.status == Trial <==>
      now <= s.subscriptionEndDate && s.status == Trial && !After(now, s.trialEndDate)
    ensures r.status == Other <==> now <= s.subscriptionEndDate && s.status == Other
  {
    if now > s.subscriptionEndDate then s.(status := Expired)
    else if After(now, s.trialEndDate) && s.status == Trial then s.(status := Active)
    else s
  }

  /** Recomputing twice at the same instant is recomputing once. */
  lemma RecomputeIdempotent(s: Subscription, now: int)
    ensures Recompute(Recompute(s, now), now) == Recompute(s, now)
  {
  }

  /** Recompute never turns a subscription back into a trial. */
  lemma RecomputeNeverRevertsToTrial(s: Subscription, now: int)
    requires s.status != Trial
    ensures Recompute(s, now).status != Trial
  {
  }

  /**
   * The premium-feature gate: false with no subscription, when expired, or past the
   * hard end; otherwise true exactly for a trial or an active subscription.
   */
  function IsSubscriptionActive(sub: Option<Subscription>, now: int): (r: bool)
    ensures r <==> sub.Some? && now <= sub.value.subscriptionEndDate
                   && (sub.value.status == Trial || sub.value.status == Active)
  {
    if sub.None? then false
    else if sub.value.status == Expired || now > sub.value.subscriptionEndDate then false
    else sub.value.status == Trial || sub.value.status == Active
  }

  /** Recomputing does not change the gate's answer at the same instant. */
  lemma RecomputePreservesActive(s: Subscription, now: int)
    ensures IsSubscriptionActive(Some(Recompute(s, now)), now) == IsSubscriptionActive(Some(s), now)
  {
  }

  /** The subscription a new profile starts with: a 30-day trial and a hard end 60 days out. */
  function NewTrial(now: int): (r: Subscription)
    ensures r.status == Trial && r.trialStartDate == Some(now) && r.lastPaymentDate.None?
    ensures r.trialEndDate == Some(now + TRIAL_DAYS * DAY)
    ensures r.subscriptionEndDate == now + FIRST_EXPIRY_DAYS * DAY
    ensures r.price == Some(PRICE) && r.currency == Some(CURRENCY)
  {
    Subscription(Trial, Some(now), Some(now + 30 * DAY), now + 60 * DAY, Some(500), Some("NGN"), None)
  }

  /** The trial end of a new profile lies strictly before its hard end. */
  lemma NewTrialEndsBeforeHardEnd(now: int)
    ensures NewTrial(now).trialEndDate.value < NewTrial(now).subscriptionEndDate
  {
  }

  /**
   * The life cycle of a profile created at `t`, as read by the recompute rule: a trial
   * up to and including day 30, active after it up to and including day 60, expired after.
   */
  lemma {:induction false} NewTrialTimeline(t: int, now: int)
    requires now >= t
    ensures now <= t + 30 * DAY ==> Recompute(NewTrial(t), now).status == Trial
    ensures t + 30 * DAY < now <= t + 60 * DAY ==> Recompute(NewTrial(t), now).status == Active
    ensures now > t + 60 * DAY ==> Recompute(NewTrial(t), now).status == Expired
    ensures IsSubscriptionActive(Some(Recompute(NewTrial(t), now)), now) <==> now <= t + 60 * DAY
  {
    var s := NewTrial(t);
    assert s.trialEndDate == Some(t + 30 * DAY);
    assert s.subscriptionEndDate == t + 60 * DAY;
  }

  /**
   * `{...subscription, status: 'active', subscriptionEndDate: now + 30d, lastPaymentDate: now}`;
   * spreading a missing subscription contributes no fields.
   */
  function Renewed(sub: Option<Subscription>, now: int): (r: Subscription)
    ensures r.status == Active && r.subscriptionEndDate == now + RENEWAL_DAYS * DAY
    ensures r.lastPaymentDate == Some(now)
    ensures sub.Some? ==> r.trialStartDate == sub.value.trialStartDate && r.trialEndDate == sub.value.trialEndDate
                          && r.price == sub.value.price && r.currency == sub.value.currency
    ensures sub.None? ==> r.trialStartDate.None? && r.trialEndDate.None? && r.price.None? && r.currency.None?
  {
    match sub
    case Some(s) => s.(status := Active, subscriptionEndDate := now + 30 * DAY, lastPaymentDate := Some(now))
    case None => Subscription(Active, None, None, now + 30 * DAY, None, None, Some(now))
  }

  /**
   * A renewal at `now` keeps the gate open, and recompute keeps it active, through
   * the 30 days it paid for, and no longer.
   */
  lemma RenewedTimeline(sub: Option<Subscription>, now: int, later: int)
    requires later >= now
    ensures IsSubscriptionActive(Some(Renewed(sub, now)), later) <==> later <= now + 30 * DAY
    ensures later <= now + 30 * DAY ==> Recompute(Renewed(sub, now), later).status == Active
    ensures later > now + 30 * DAY ==> Recompute(Renewed(sub, now), later).status == Expired
  {
  }

  /** The profile fields the setup screen collects. */
  datatype Profile = Profile(
    ownerName: string, businessName: string, businessType: string,
    phone: string, email: string, address: string)

  /** `{...profileData, id, createdAt}`. */
  datatype User = User(profile: Profile, id: string, createdAt: int)

  /**
   * The auth provider's state, with the three storage slots it reads and writes:
   * the secure-store token, the `userData` key and the `subscriptionData` key.
   */
  class AuthProvider {
    var isAuthenticated: bool
    var user: Option<User>
    var isLoading: bool
    var biometricSupported: bool
    var subscription: Option<Subscription>
    var storedToken: Option<string>
    var storedUserData: Stored<User>
    var storedSubscription: Stored<Subscription>

    /** The provider as first rendered, over whatever the device storage holds. */
    constructor (token: Option<string>, userData: Stored<User>, subData: Stored<Subscription>)
      ensures !isAuthenticated && user.None? && isLoading && !biometricSupported && subscription.None?
      ensures storedToken == token && storedUserData == userData && storedSubscription == subData
    {
      isAuthenticated := false;
      user := None;
      isLoading := true;
      biometricSupported := false;
      subscription := None;
      storedToken := token;
      storedUserData := userData;
      storedSubscription := subData;
    }

    /** A token is present when the slot holds a non-empty string (a truthy value). */
    predicate HasToken()
      reads this
    {
      storedToken.Some? && storedToken.value != ""
    }

    /** Biometrics are usable when the hardware exists and the user has enrolled. */
    method CheckBiometricSupport(compatible: bool, enrolled: bool)
      modifies this
      ensures biometricSupported == (compatible && enrolled)
      ensures isAuthenticated == old(isAuthenticated) && user == old(user) && isLoading == old(isLoading)
      ensures subscription == old(subscription) && storedToken == old(storedToken)
      ensures storedUserData == old(storedUserData) && storedSubscription == old(storedSubscription)
    {
      biometricSupported := compatible && enrolled;
    }

    /**
     * Restore the session: signed in exactly when a token and user data are stored and
     * the data parses; corrupt data is removed together with the token.
     */
    method CheckAuthState()
      modifies this
      ensures !isLoading
      ensures isAuthenticated <==> old(HasToken()) && old(storedUserData).Parsed?
      ensures isAuthenticated ==> user == Some(old(storedUserData).value)
      ensures !isAuthenticated ==> user.None?
      ensures old(HasToken()) && old(storedUserData).Corrupt? ==> storedToken.None? && storedUserData.Absent?
      ensures !(old(HasToken()) && old(storedUserData).Corrupt?) ==>
                storedToken == old(storedToken) && storedUserData == old(storedUserData)
      ensures subscription == old(subscription) && storedSubscription == old(storedSubscription)
      ensures biometricSupported == old(biometricSupported)
    {
      if HasToken() && !storedUserData.Absent? {
        match storedUserData
        case Parsed(u) =>
          user := Some(u);
          isAuthenticated := true;
        case Corrupt =>
          storedToken := None;
          storedUserData := Absent;
          user := None;
          isAuthenticated := false;
      } else {
        user := None;
        isAuthenticated := false;
      }
      isLoading := false;
    }

    /**
     * Load the stored subscription, apply the recompute rule at `now`, hold the result
     * and write it back. Nothing stored, or a payload that does not parse, changes nothing.
     */
    method CheckSubscriptionStatus(now: int)
      modifies this
      ensures old(storedSubscription).Parsed? ==>
                subscription == Some(Recompute(old(storedSubscription).value, now))
                && storedSubscription == Parsed(subscription.value)
      ensures !old(storedSubscription).Parsed? ==>
                subscription == old(subscription) && storedSubscription == old(storedSubscription)
      ensures isAuthenticated == old(isAuthenticated) && user == old(user) && isLoading == old(isLoading)
      ensures storedToken == old(storedToken) && storedUserData == old(storedUserData)
      ensures biometricSupported == old(biometricSupported)
    {
      if storedSubscription.Parsed? {
        var s := Recompute(storedSubscription.value, now);
        subscription := Some(s);
        storedSubscription := Parsed(s);
      }
    }

    /**
     * Create the profile: the user record gets the injected `id` (the source uses the
     * clock) and `createdAt == now`, the subscription starts as a fresh trial, the id is
     * stored as the session token, and the user is signed in.
     */
    method CreateProfile(profile: Profile, id: string, now: int)
      modifies this
      ensures user == Some(User(profile, id, now)) && isAuthenticated
      ensures subscription == Some(NewTrial(now))
      ensures storedUserData == Parsed(user.value) && storedSubscription == Parsed(NewTrial(now))
      ensures storedToken == Some(id)
      ensures isLoading == old(isLoading) && biometricSupported == old(biometricSupported)
    {
      var u := User(profile, id, now);
      var s := NewTrial(now);
      storedUserData := Parsed(u);
      storedSubscription := Parsed(s);
      storedToken := Some(id);
      user := Some(u);
      subscription := Some(s);
      isAuthenticated := true;
    }

    /**
     * Sign in. With biometrics the outcome of the prompt (`biometricOk`, an input here)
     * decides; without them a stored token and user data decide, and the stored user is
     * loaded. A payload that does not parse makes the login fail without changes.
     */
    method Login(biometricOk: bool) returns (ok: bool)
      modifies this
      ensures biometricSupported ==> ok == biometricOk && user == old(user)
      ensures !biometricSupported ==> ok == (old(HasToken()) && old(storedUserData).Parsed?)
      ensures !biometricSupported && ok ==> user == Some(old(storedUserData).value)
      ensures !biometricSupported && !ok ==> user == old(user)
      ensures isAuthenticated == (old(isAuthenticated) || ok)
      ensures subscription == old(subscription) && isLoading == old(isLoading)
      ensures biometricSupported == old(biometricSupported)
      ensures storedToken == old(storedToken) && storedUserData == old(storedUserData)
      ensures storedSubscription == old(storedSubscription)
    {
      ok := false;
      if biometricSupported {
        if biometricOk {
          isAuthenticated := true;
          ok := true;
        }
      } else if HasToken() && storedUserData.Parsed? {
        user := Some(storedUserData.value);
        isAuthenticated := true;
        ok := true;
      }
    }

    /** Sign out: the three storage slots are cleared along with the user, subscription and session. */
    method Logout()
      modifies this
      ensures user.None? && subscription.None? && !isAuthenticated
      ensures storedToken.None? && storedUserData.Absent? && storedSubscription.Absent?
      ensures isLoading == old(isLoading) && biometricSupported == old(biometricSupported)
    {
      storedToken := None;
      storedUserData := Absent;
      storedSubscription := Absent;
      user := None;
      subscription := None;
      isAuthenticated := false;
    }

    /** Record a (local, unverified) payment: the held subscription becomes `Renewed(subscription, now)`. */
    method RenewSubscription(now: int)
      modifies this
      ensures subscription == Some(Renewed(old(subscription), now))
      ensures storedSubscription == Parsed(subscription.value)
      ensures isAuthenticated == old(isAuthenticated) && user == old(user) && isLoading == old(isLoading)
      ensures storedToken == old(storedToken) && storedUserData == old(storedUserData)
      ensures biometricSupported == old(biometricSupported)
    {
      var s := Renewed(subscription, now);
      storedSubscription := Parsed(s);
      subscription := Some(s);
    }
  }
}
