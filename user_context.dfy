/** The React context that holds the selected user and that user's posts. */
module UserContext {
  import opened Wrappers
  import opened Values

  /** The state `UserProvider` keeps: the current user id and its metadata. */
  class UserProvider {
    var currentUser: Option<string>
    var metadata: Option<Json>

    /** Both fields start out as null. */
    constructor()
      ensures currentUser == None && metadata == None
    {
      currentUser := None;
      metadata := None;
    }

    /**
     * `setUser(user, metadata)`: both fields are overwritten together, so the
     * state after a call depends on that call's arguments alone and a later
     * call wins outright over an earlier one.
     */
    method SetUser(user: string, data: Json)
      modifies this
      ensures currentUser == Some(user) && metadata == Some(data)
    {
      currentUser := Some(user);
      metadata := Some(data);
    }
  }

  /** The message `useUserContext` throws outside a provider. */
  const OutsideProvider := "useUserContext must be used within a UserProvider"

  /** `useUserContext`: the nearest provider, or an error when there is none. */
  function UseUserContext(context: Option<UserProvider>): (r: Result<UserProvider, string>)
    ensures r.Ok? <==> context.Some?
    ensures r.Ok? ==> r.value == context.value
    ensures r.Err? ==> r.error == OutsideProvider
  {
    match context
    case Some(p) => Ok(p)
    case None => Err(OutsideProvider)
  }
}
