/** The restaurants listing endpoint (app/api/restaurants/route.ts). */
module RestaurantsRoute {
  import opened Wrappers
  import opened Seqs
  import opened Permissions
  import opened Records

  /** The `where` clause of the listing query. */
  datatype RestaurantWhere = AllRestaurants | RestaurantsInCountry(country: Country)

  predicate RestaurantMatches(w: RestaurantWhere, r: Restaurant) {
    match w
    case AllRestaurants => true
    case RestaurantsInCountry(c) => r.country == c
  }

  /**
   * The listing filter as the route writes it: the country check on the actor's own
   * country always passes, so its fallback branch is never taken and the filter depends
   * on the role alone.
   */
  function RestaurantWhereFor(u: Actor): (w: RestaurantWhere)
    ensures w.AllRestaurants? <==> u.role == Admin
    ensures w.RestaurantsInCountry? ==> w.country == u.country
  {
    if HasPermission(u, AccessCountryData, Some(u.country)) then
      (if u.role == Admin then AllRestaurants else RestaurantsInCountry(u.country))
    else
      RestaurantsInCountry(u.country)
  }

  /** `GET /api/restaurants`. */
  function GetRestaurants(session: Option<Actor>, store: seq<Restaurant>): (r: Response<seq<Restaurant>>)
    ensures session.None? <==> r == Unauthorized401
    ensures !r.Forbidden403?
    ensures r.Ok? ==> Subseq(r.payload, store)
    ensures session.Some? && session.value.role == Admin ==> r == Ok(store)
    ensures session.Some? && session.value.role != Admin ==>
      r.Ok? && Selects(r.payload, store, (x: Restaurant) => x.country == session.value.country)
  {
    match session
    case None => Unauthorized401
    case Some(u) =>
      if !HasPermission(u, ViewRestaurants, None) then Forbidden403
      else
        var w := RestaurantWhereFor(u);
        var p := (x: Restaurant) => RestaurantMatches(w, x);
        if u.role == Admin then
          FilterAll(store, p);
          Ok(Filter(store, p))
        else
          FilterAgree(store, p, (x: Restaurant) => x.country == u.country);
          Ok(Filter(store, p))
  }

  /** Without a session the listing answers 401 whatever the table holds. */
  lemma ListingWithoutSession(s1: seq<Restaurant>, s2: seq<Restaurant>)
    ensures GetRestaurants(None, s1) == GetRestaurants(None, s2) == Unauthorized401
  {
  }
}
