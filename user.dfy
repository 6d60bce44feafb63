/** User (app/models/user.rb): an authenticated principal of one tenant. */
module Users {
  import opened RubyString
  import opened Validation

  const ROLES: seq<string> := ["admin", "member"]
  const DEFAULT_ROLE: string := "member"

  /** The (tenant_id, email) of an already stored user. */
  datatype UserRow = UserRow(tenantId: int, email: string)

  /** `uniqueness: { scope: :tenant_id, case_sensitive: false }` on email. */
  predicate EmailTaken(tenantId: int, email: string, others: seq<UserRow>) {
    exists o :: o in others && o.tenantId == tenantId && Downcase(o.email) == Downcase(email)
  }

  /** The email, role and password validations, as declared; `password` is ""
      when none was given (nil and "" are both blank). */
  function AttributeErrors(tenantId: int, email: string, role: string, password: string, others: seq<UserRow>)
    : (r: seq<FieldError>)
    ensures r == [] <==>
      && IsPresent(email)
      && !EmailTaken(tenantId, email, others)
      && role in ROLES
      && (IsPresent(password) ==> |password| >= 8)
  {
    Presence("email", email)
      + (if EmailTaken(tenantId, email, others) then [FieldError("email", Taken)] else [])
      + InclusionIn("role", role, ROLES)
      + (if IsPresent(password) then MinimumLength("password", password, 8) else [])
  }


  /** Within a tenant, emails are pairwise different once case is ignored. */
  predicate DistinctEmailsPerTenant(rows: seq<UserRow>) {
    forall i, j :: 0 <= i < j < |rows| && rows[i].tenantId == rows[j].tenantId ==>
      Downcase(rows[i].email) != Downcase(rows[j].email)
  }

  /** Saving only users that pass validation keeps emails unique per tenant. */
  lemma InsertKeepsDistinctEmails(rows: seq<UserRow>, tenantId: int, email: string, role: string, password: string)
    requires DistinctEmailsPerTenant(rows)
    requires AttributeErrors(tenantId, email, role, password, rows) == []
    ensures DistinctEmailsPerTenant(rows + [UserRow(tenantId, email)])
  {
    var all := rows + [UserRow(tenantId, email)];
    forall i, j | 0 <= i < j < |all| && all[i].tenantId == all[j].tenantId
      ensures Downcase(all[i].email) != Downcase(all[j].email)
    {
      if j == |rows| {
        assert all[i] in rows;
      }
    }
  }

  class User {
    var tenantId: int
    var email: string
    var role: string
    var password: string

    /** A new user takes the column default role. */
    constructor (tenantId: int, email: string, password: string)
      ensures this.tenantId == tenantId && this.email == email && this.password == password
      ensures role == DEFAULT_ROLE
    {
      this.tenantId := tenantId;
      this.email := email;
      this.password := password;
      role := DEFAULT_ROLE;
    }

    /** The `normalize_email` callback. */
    method NormalizeEmail()
      modifies this`email
      ensures email == Normalize(old(email))
    {
      if IsPresent(email) {
        email := Strip(Downcase(email));
      }
    }

    predicate IsAdmin()
      reads this
    {
      role == "admin"
    }

    function Errors(others: seq<UserRow>): (r: seq<FieldError>)
      reads this
      ensures r == [] <==>
        IsPresent(email) && !EmailTaken(tenantId, email, others) && role in ROLES
        && (IsPresent(password) ==> |password| >= 8)
    {
      AttributeErrors(tenantId, email, role, password, others)
    }

    /** `valid?`: the `before_validation` callback, then the validations. */
    method Validate(others: seq<UserRow>) returns (errors: seq<FieldError>)
      modifies this`email
      ensures email == Normalize(old(email))
      ensures errors == Errors(others)
    {
      NormalizeEmail();
      errors := AttributeErrors(tenantId, email, role, password, others);
    }
  }

  /** `where(role: role)` over a list of users, in order. */
  function WithRole(users: seq<User>, role: string): (r: seq<User>)
    reads users
    ensures forall i :: 0 <= i < |r| ==> r[i] in users && r[i].role == role
    ensures forall i :: 0 <= i < |users| && users[i].role == role ==> users[i] in r
    ensures forall u :: u in users ==> multiset(r)[u] == (if u.role == role then multiset(users)[u] else 0)
  {
    if users == [] then []
    else
      var rest := WithRole(users[..|users| - 1], role);
      var last := users[|users| - 1];
      assert users == users[..|users| - 1] + [last];
      if last.role == role then rest + [last] else rest
  }

  /** The `admins` scope. */
  function Admins(users: seq<User>): (r: seq<User>)
    reads users
    ensures forall i :: 0 <= i < |r| ==> r[i] in users && r[i].IsAdmin()
    ensures forall u :: u in users ==> multiset(r)[u] == (if u.IsAdmin() then multiset(users)[u] else 0)
  {
    WithRole(users, "admin")
  }

  /** The `members` scope. */
  function Members(users: seq<User>): (r: seq<User>)
    reads users
    ensures forall i :: 0 <= i < |r| ==> r[i] in users && r[i].role == "member"
    ensures forall u :: u in users ==> multiset(r)[u] == (if u.role == "member" then multiset(users)[u] else 0)
  {
    WithRole(users, "member")
  }

  /** Among users with a valid role, `admins` and `members` split the list:
      each user is in exactly one of them, and `admin?` says which. */
  lemma AdminsMembersPartition(users: seq<User>, u: User)
    requires forall v :: v in users ==> v.role in ROLES
    requires u in users
    ensures u in Admins(users) <==> u !in Members(users)
    ensures u in Admins(users) <==> u.IsAdmin()
  {
    var k :| 0 <= k < |users| && users[k] == u;
    assert users[k].role == "admin" || users[k].role == "member";
  }
}
