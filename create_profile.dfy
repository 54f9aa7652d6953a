/**
 * `POST /api/create-profile`: create the signed-in user's Profile row once, with an empty
 * subscription.
 */
module CreateProfile {
  import opened Wrappers
  import opened Http
  import opened Profiles

  /** The signed-in user as the identity provider reports it: its id and its email addresses. */
  datatype ClerkUser = ClerkUser(id: string, emailAddresses: seq<string>)

  /** Whether the `findUnique` lookup and the `create` insert throw. */
  datatype CreateFaults = CreateFaults(lookupFails: bool, createFails: bool)

  const UserNotFound := Response(404, ErrorBody("User not found in Clerk"))
  const NoEmail := Response(400, ErrorBody("User does not have an email address"))
  const AlreadyExists := Response(200, MessageBody("Profile already exists."))
  const Created := Response(201, MessageBody("Profile created successfully."))
  const InternalError := Response(500, ErrorBody("internal error."))

  /** The user's first email address is present and not empty. */
  predicate HasEmail(u: ClerkUser) {
    |u.emailAddresses| > 0 && u.emailAddresses[0] != ""
  }

  /**
   * The response and the table after one request. Only a 201 changes the table, and then by
   * exactly one new row for the user; each other outcome has its own condition: no user (404),
   * an empty first address (400), a row already there (200), and 500 when the user has no email
   * address at all (indexing the empty list throws) or the store fails.
   */
  function CreateOutcome(t: Table, user: Option<ClerkUser>, faults: CreateFaults): (out: (Response, Table))
    ensures out.0 == UserNotFound <==> user.None?
    ensures out.0 == NoEmail <==> user.Some? && |user.value.emailAddresses| > 0 && user.value.emailAddresses[0] == ""
    ensures out.0 == AlreadyExists <==> user.Some? && HasEmail(user.value) && !faults.lookupFails && user.value.id in t
    ensures out.0 == Created <==>
      user.Some? && HasEmail(user.value) && !faults.lookupFails && user.value.id !in t && !faults.createFails
    ensures out.0 == InternalError <==>
      user.Some? && (|user.value.emailAddresses| == 0 ||
        (HasEmail(user.value) && (faults.lookupFails || (user.value.id !in t && faults.createFails))))
    ensures out.0 != Created ==> out.1 == t
    ensures out.0 == Created ==>
      && out.1.Keys == t.Keys + {user.value.id}
      && (forall k :: k in t ==> out.1[k] == t[k])
      && out.1[user.value.id] == NewProfile(user.value.emailAddresses[0])
  {
    match user
    case None => (UserNotFound, t)
    case Some(u) =>
      if |u.emailAddresses| == 0 then (InternalError, t)
      else if u.emailAddresses[0] == "" then (NoEmail, t)
      else if faults.lookupFails then (InternalError, t)
      else if u.id in t then (AlreadyExists, t)
      else if faults.createFails then (InternalError, t)
      else (Created, t[u.id := NewProfile(u.emailAddresses[0])])
  }

  /** The route: check for an existing row, then insert; every exception becomes a 500. */
  method Post(store: ProfileStore, user: Option<ClerkUser>, faults: CreateFaults) returns (response: Response)
    modifies store
    ensures (response, store.profiles) == CreateOutcome(old(store.profiles), user, faults)
  {
    if user.None? {
      return UserNotFound;
    }
    var clerkUser := user.value;
    if |clerkUser.emailAddresses| == 0 {
      return InternalError;  // `emailAddresses[0].emailAddress` throws a TypeError
    }
    var email := clerkUser.emailAddresses[0];
    if email == "" {
      return NoEmail;
    }
    var existing := store.FindUnique(clerkUser.id, faults.lookupFails);
    if existing.Err? {
      return InternalError;
    }
    if existing.value.Some? {
      return AlreadyExists;
    }
    var created := store.Create(clerkUser.id, email, faults.createFails);
    if created.Err? {
      return InternalError;
    }
    response := Created;
  }

  /**
   * Creation is idempotent: once a request created the row, a second request for the same
   * user (with any email addresses) leaves the table as it is and answers "already exists",
   * or 500 if its lookup fails.
   */
  lemma CreateProfileIdempotent(t: Table, user: ClerkUser, again: ClerkUser, f1: CreateFaults, f2: CreateFaults)
    requires CreateOutcome(t, Some(user), f1).0 == Created
    requires again.id == user.id && HasEmail(again)
    ensures var t1 := CreateOutcome(t, Some(user), f1).1;
      && CreateOutcome(t1, Some(again), f2).1 == t1
      && CreateOutcome(t1, Some(again), f2).0 == (if f2.lookupFails then InternalError else AlreadyExists)
  {
  }

  /** A new row is inactive, so creation keeps the invariant that active rows have a plan. */
  lemma CreateKeepsActiveHasPlan(t: Table, user: Option<ClerkUser>, faults: CreateFaults)
    requires ActiveHasPlan(t)
    ensures ActiveHasPlan(CreateOutcome(t, user, faults).1)
  {
  }
}
