/**
 * The Profile table and the Prisma operations on it that the route handlers use.
 * The table is keyed by the identity provider's user id; each row holds the other four columns.
 */
module Profiles {
  import opened Wrappers

  /** One Profile row (its key, `userId`, is the table's key). */
  datatype Profile = Profile(
    email: string,
    subscriptionActive: bool,
    subscriptionTier: Option<string>,
    stripeSubscriptionId: Option<string>)

  type Table = map<string, Profile>

  /**
   * The `data` argument of `prisma.profile.update`: a field given as `None` is left as it is,
   * a field given as `Some(v)` is overwritten with `v` (which for the two nullable columns is
   * itself an option, `None` standing for `null`).
   */
  datatype ProfileData = ProfileData(
    subscriptionActive: Option<bool>,
    subscriptionTier: Option<Option<string>>,
    stripeSubscriptionId: Option<Option<string>>)

  /** The row `update` leaves behind: listed fields overwritten, the others (and `email`) kept. */
  function ApplyData(p: Profile, d: ProfileData): Profile {
    Profile(
      p.email,
      d.subscriptionActive.GetOr(p.subscriptionActive),
      d.subscriptionTier.GetOr(p.subscriptionTier),
      d.stripeSubscriptionId.GetOr(p.stripeSubscriptionId))
  }

  /** An update writes fixed values, so writing the same data again changes nothing. */
  lemma ApplyDataIdempotent(p: Profile, d: ProfileData)
    ensures ApplyData(ApplyData(p, d), d) == ApplyData(p, d)
  {
  }

  /** The row `create-profile` inserts: not subscribed, no tier, no Stripe subscription. */
  function NewProfile(email: string): Profile {
    Profile(email, false, None, None)
  }

  /** The keys of the rows whose `stripeSubscriptionId` equals `sid`. */
  function Matching(t: Table, sid: string): set<string> {
    set k | k in t && t[k].stripeSubscriptionId == Some(sid)
  }

  /**
   * `found` is a result `findFirst({ where: { stripeSubscriptionId: sid } })` may return:
   * some matching row's key, or nothing when no row matches. Which of several matching rows
   * comes first is up to the database.
   */
  predicate FindsFirst(t: Table, sid: string, found: Option<string>) {
    match found
    case Some(k) => k in Matching(t, sid)
    case None => Matching(t, sid) == {}
  }

  /**
   * Every active row has a tier and a Stripe subscription id: the state a completed checkout
   * with a plan is meant to leave, and that only a cancellation or a failed payment ends.
   */
  ghost predicate ActiveHasPlan(t: Table) {
    forall k :: k in t && t[k].subscriptionActive ==>
      t[k].subscriptionTier.Some? && t[k].stripeSubscriptionId.Some?
  }

  /** Why a Prisma call throws. */
  datatype StoreError =
    | RecordNotFound   // `update` of a key with no row
    | UniqueViolation  // `create` of a key that already has a row
    | Unavailable      // the database could not be reached or failed

  /**
   * The Prisma client's view of the Profile table. Each operation takes a flag `fails` standing
   * for a database failure, which the environment decides.
   */
  class ProfileStore {
    var profiles: Table

    constructor (initial: Table)
      ensures profiles == initial
    {
      profiles := initial;
    }

    /** `prisma.profile.findUnique({ where: { userId } })` */
    method FindUnique(userId: string, fails: bool) returns (r: Result<Option<Profile>, StoreError>)
      ensures fails <==> r.Err?
      ensures r.Ok? ==> (r.value.Some? <==> userId in profiles)
      ensures r.Ok? && r.value.Some? ==> r.value.value == profiles[userId]
    {
      if fails {
        return Err(Unavailable);
      }
      if userId in profiles {
        r := Ok(Some(profiles[userId]));
      } else {
        r := Ok(None);
      }
    }

    /** `prisma.profile.findFirst({ where: { stripeSubscriptionId: sid }, select: { userId: true } })` */
    method FindFirstBySubscription(sid: string, fails: bool) returns (r: Result<Option<string>, StoreError>)
      ensures fails <==> r.Err?
      ensures r.Ok? ==> FindsFirst(profiles, sid, r.value)
    {
      if fails {
        return Err(Unavailable);
      }
      var matching := Matching(profiles, sid);
      if matching == {} {
        r := Ok(None);
      } else {
        var k :| k in matching;
        r := Ok(Some(k));
      }
    }

    /** `prisma.profile.update({ where: { userId }, data })`; throws when no row has that key. */
    method Update(userId: string, data: ProfileData, fails: bool) returns (r: Result<(), StoreError>)
      modifies this
      ensures r.Ok? <==> !fails && userId in old(profiles)
      ensures !fails && userId !in old(profiles) ==> r == Err(RecordNotFound)
      ensures profiles == if r.Ok? then old(profiles)[userId := ApplyData(old(profiles)[userId], data)]
                          else old(profiles)
    {
      if fails {
        return Err(Unavailable);
      }
      if userId !in profiles {
        return Err(RecordNotFound);
      }
      profiles := profiles[userId := ApplyData(profiles[userId], data)];
      r := Ok(());
    }

    /** `prisma.profile.create({ data: { userId, email, ...empty subscription } })`; `userId` is unique. */
    method Create(userId: string, email: string, fails: bool) returns (r: Result<(), StoreError>)
      modifies this
      ensures r.Ok? <==> !fails && userId !in old(profiles)
      ensures !fails && userId in old(profiles) ==> r == Err(UniqueViolation)
      ensures profiles == if r.Ok? then old(profiles)[userId := NewProfile(email)] else old(profiles)
    {
      if fails {
        return Err(Unavailable);
      }
      if userId in profiles {
        return Err(UniqueViolation);
      }
      profiles := profiles[userId := NewProfile(email)];
      r := Ok(());
    }
  }
}
