/**
 * The post-login gate: one fixed chain of checks that sends a visitor to the
 * login page, the verify-e-mail page, onboarding or the dashboard. A missing
 * profile row is created on the way. Each redirect ends the request. The
 * profile select is a parameter keyed by user id.
 */
module PostLogin {
  import opened Wrappers

  /** The signed-in user as the auth service reports it. */
  datatype User = User(id: string, email: Option<string>, emailConfirmedAt: Option<string>)

  /** The `onboarded` column of the user's `profiles` row (`null` when unset). */
  datatype Row = Row(onboarded: Option<bool>)

  /** The awaited `.maybeSingle()` select: whether it reported an error, and the row if there is one. */
  datatype Select = Select(failed: bool, row: Option<Row>)

  /** The row the gate inserts for a user who has none. */
  datatype Insert = Insert(id: string, email: Option<string>, onboarded: bool)

  datatype Destination = ToLogin | ToVerifyEmail | ToOnboarding | ToDashboard

  /** The gate's outcome: the one insert it may issue, and where it redirects. */
  datatype Gate = Gate(insert: Option<Insert>, destination: Destination)

  /** `email_confirmed_at` is truthy: present and not the empty string. */
  predicate Confirmed(u: User)
  {
    u.emailConfirmedAt.Some? && u.emailConfirmedAt.value != ""
  }

  /** `profile.onboarded` is truthy. */
  predicate Onboarded(r: Row)
  {
    r.onboarded == Some(true)
  }

  /** `PostLogin`: session, then e-mail confirmation, then the select error, then the missing row, then the flag. */
  function Decide(user: Option<User>, select: string -> Select): (g: Gate)
    ensures g.destination == ToLogin <==> user.None?
    ensures g.destination == ToVerifyEmail <==> user.Some? && !Confirmed(user.value)
    ensures g.destination == ToDashboard <==>
      && user.Some? && Confirmed(user.value)
      && !select(user.value.id).failed
      && select(user.value.id).row.Some? && Onboarded(select(user.value.id).row.value)
    ensures g.destination == ToOnboarding <==>
      && user.Some? && Confirmed(user.value)
      && (select(user.value.id).failed || select(user.value.id).row.None? || !Onboarded(select(user.value.id).row.value))
    ensures g.insert.Some? <==>
      user.Some? && Confirmed(user.value) && !select(user.value.id).failed && select(user.value.id).row.None?
    ensures g.insert.Some? ==> g.insert == Some(Insert(user.value.id, user.value.email, false)) && g.destination == ToOnboarding
  {
    if user.None? then Gate(None, ToLogin)
    else
      var u := user.value;
      if !Confirmed(u) then Gate(None, ToVerifyEmail)
      else
        var sel := select(u.id);
        if sel.failed then Gate(None, ToOnboarding)
        else if sel.row.None? then Gate(Some(Insert(u.id, u.email, false)), ToOnboarding)
        else if !Onboarded(sel.row.value) then Gate(None, ToOnboarding)
        else Gate(None, ToDashboard)
  }

  /** Before the profile is read, the outcome cannot depend on it: the select is not issued. */
  lemma NoSelectBeforeConfirmation(user: Option<User>, select1: string -> Select, select2: string -> Select)
    requires user.None? || !Confirmed(user.value)
    ensures Decide(user, select1) == Decide(user, select2)
  {
  }

  /** A failed select sends the user to onboarding without inserting anything. */
  lemma SelectErrorGoesToOnboarding(u: User, select: string -> Select)
    requires Confirmed(u) && select(u.id).failed
    ensures Decide(Some(u), select) == Gate(None, ToOnboarding)
  {
  }
}
