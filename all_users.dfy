/** The admin's "All Users" table: which role changes each row offers, whose rows are listed, and the confirmation gate. */
module AllUsers {
  import opened Common

  /** An account as the users endpoint returns it; roles are free text. */
  datatype Account = Account(id: string, name: string, email: Option<string>, role: string)

  /** The request `handleRoleUpdate` sends: `PATCH /users/:id` with the new role. */
  datatype RoleRequest = RoleRequest(userId: string, role: string)

  /** The new roles a row's buttons offer, left to right. */
  function RoleActions(role: string): (offered: seq<string>)
    ensures role == "admin" ==> offered == ["vendor"]
    ensures role == "vendor" ==> offered == ["admin", "user"]
    ensures role == "user" ==> offered == ["vendor"]
    ensures role !in {"admin", "vendor", "user"} ==> offered == []
  {
    if role == "admin" then ["vendor"]
    else if role == "vendor" then ["admin", "user"]
    else if role == "user" then ["vendor"]
    else []
  }

  /** Every button changes the role: no role is offered to itself. */
  lemma OfferedRoleDiffers(role: string, newRole: string)
    requires newRole in RoleActions(role)
    ensures newRole != role
    ensures newRole in {"admin", "vendor", "user"}
  {
  }

  /** Between the three known roles, each can be turned into any other in at most two offered steps, always through "vendor". */
  lemma KnownRolesConnected(from: string, to: string)
    requires from in {"admin", "vendor", "user"} && to in {"admin", "vendor", "user"} && from != to
    ensures to in RoleActions(from) || (from != "vendor" && "vendor" in RoleActions(from) && to in RoleActions("vendor"))
  {
  }

  /** `users.map(user => user.email !== thisUser.email && <row/>)`: the rows listed, in order. */
  function VisibleAccounts(users: seq<Account>, myEmail: Option<string>): (r: seq<Account>)
    ensures |r| <= |users|
    decreases |users|
  {
    if users == [] then []
    else
      var n := |users| - 1;
      var front := VisibleAccounts(users[..n], myEmail);
      if users[n].email != myEmail then front + [users[n]] else front
  }

  /** Exactly the other accounts are listed: the signed-in user's own row never is. */
  lemma {:induction false} OwnRowNeverListed(users: seq<Account>, myEmail: Option<string>)
    ensures forall a :: a in VisibleAccounts(users, myEmail) <==> a in users && a.email != myEmail
    decreases |users|
  {
    if users != [] {
      var n := |users| - 1;
      OwnRowNeverListed(users[..n], myEmail);
      assert users == users[..n] + [users[n]];
    }
  }

  /** Listing a table in two parts lists each part in place: the row order is the fetched order. */
  lemma {:induction false} VisibleAccountsKeepsOrder(a: seq<Account>, b: seq<Account>, myEmail: Option<string>)
    ensures VisibleAccounts(a + b, myEmail) == VisibleAccounts(a, myEmail) + VisibleAccounts(b, myEmail)
    decreases |b|
  {
    if b == [] {
      assert a + b == a;
    } else {
      var n := |b| - 1;
      var ab := a + b;
      assert ab[..|ab| - 1] == a + b[..n] && ab[|ab| - 1] == b[n];
      VisibleAccountsKeepsOrder(a, b[..n], myEmail);
      assert b[..|b| - 1] == b[..n];
    }
  }

  /** `handleRoleUpdate`: nothing is sent unless the dialog is confirmed. */
  function RoleUpdate(confirmed: bool, userId: string, newRole: string): (r: Option<RoleRequest>)
    ensures r.Some? <==> confirmed
    ensures r.Some? ==> r.value == RoleRequest(userId, newRole)
  {
    if !confirmed then None else Some(RoleRequest(userId, newRole))
  }

  /** A confirmed click on a listed row's button patches someone else's account to a different, known role. */
  lemma ConfirmedClickChangesAnotherAccount(users: seq<Account>, myEmail: Option<string>, a: Account, newRole: string)
    requires a in VisibleAccounts(users, myEmail) && newRole in RoleActions(a.role)
    ensures RoleUpdate(true, a.id, newRole) == Some(RoleRequest(a.id, newRole))
    ensures a.email != myEmail && newRole != a.role
  {
    OwnRowNeverListed(users, myEmail);
    OfferedRoleDiffers(a.role, newRole);
  }
}
