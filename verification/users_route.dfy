/** The admin user directory (app/api/users/route.ts). */
module UsersRoute {
  import opened Wrappers
  import opened Permissions
  import opened Records

  /** The columns the directory selects. */
  datatype UserView = UserView(
    id: string,
    name: string,
    email: string,
    role: Role,
    country: Country,
    paymentMethod: Option<string>)

  function View(u: UserRecord): UserView {
    UserView(u.id, u.name, u.email, u.role, u.country, u.paymentMethod)
  }

  /** `GET /api/users`: admins only, every row, six columns each. */
  function GetUsers(session: Option<Actor>, store: seq<UserRecord>): (r: Response<seq<UserView>>)
    ensures session.None? <==> r == Unauthorized401
    ensures session.Some? ==> (r == Forbidden403 <==> session.value.role != Admin)
    ensures r.Ok? ==> |r.payload| == |store|
    ensures r.Ok? ==> forall i :: 0 <= i < |store| ==>
      && r.payload[i].id == store[i].id
      && r.payload[i].name == store[i].name
      && r.payload[i].email == store[i].email
      && r.payload[i].role == store[i].role
      && r.payload[i].country == store[i].country
      && r.payload[i].paymentMethod == store[i].paymentMethod
  {
    match session
    case None => Unauthorized401
    case Some(u) =>
      if u.role != Admin then Forbidden403
      else Ok(seq(|store|, i requires 0 <= i < |store| => View(store[i])))
  }

  /** Two user tables that agree on the six selected columns give the same directory. */
  lemma DirectoryHidesOtherColumns(u: Actor, s1: seq<UserRecord>, s2: seq<UserRecord>)
    requires |s1| == |s2|
    requires forall i :: 0 <= i < |s1| ==> View(s1[i]) == View(s2[i])
    ensures GetUsers(Some(u), s1) == GetUsers(Some(u), s2)
  {
    if u.role == Admin {
      var d1, d2 := GetUsers(Some(u), s1).payload, GetUsers(Some(u), s2).payload;
      assert forall i :: 0 <= i < |d1| ==> d1[i] == View(s1[i]) == View(s2[i]) == d2[i];
      assert d1 == d2;
    }
  }
}
