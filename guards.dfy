/** The access checks the pages run before loading data: a signed-in user for
    the station list and the bookings page, an admin for the admin pages. A
    redirect to the login page carries no data. */
module Guards {
  import opened Wrappers
  import opened Types
  import Auth

  /** What a guarded page ends up with: a redirect, or the data it loaded. */
  datatype Load<T> = RedirectToLogin | Loaded(data: T)

  /** `if (!currentUser) { router.push("/login"); return }`, then load. */
  function RequireUser<T>(user: Option<User>, data: T): (r: Load<T>)
    ensures r.Loaded? <==> user.Some?
    ensures r.Loaded? ==> r.data == data
  {
    if user.None? then RedirectToLogin else Loaded(data)
  }

  /** `if (!user || user.role !== "admin") { router.push("/login"); return }`,
      then load. */
  function RequireAdmin<T>(user: Option<User>, data: T): (r: Load<T>)
    ensures r.Loaded? <==> Auth.IsAdminUser(user)
    ensures r.Loaded? ==> r.data == data
  {
    if user.None? || user.value.role != RoleAdmin then RedirectToLogin else Loaded(data)
  }

  /** Whatever the admin guard lets through, the user guard lets through too. */
  lemma AdminGuardStricter<T>(user: Option<User>, data: T)
    ensures RequireAdmin(user, data).Loaded? ==> RequireUser(user, data).Loaded?
  {
  }
}
