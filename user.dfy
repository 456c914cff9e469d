/**
 * The user store: the signed-in user's profile, fetched with the session's
 * bearer token, and cleared when the session goes away.
 */
module User {
  import opened Wrappers
  import opened Remote

  datatype Profile = Profile(id: string, username: string, avatar: Option<string>)

  /** The current session; only its access token reaches this store. */
  datatype Session = Session(accessToken: string)

  /** A call to `profiles`, with the bearer token it carries. */
  datatype Request = Request(verb: Verb, bearer: string)

  class UserStore {
    var profile: Option<Profile>
    var loading: bool
    /** The session ref this store reads and watches. */
    var session: Option<Session>
    /** The remote calls this store issued, oldest first. */
    ghost var requests: seq<Request>

    constructor (session: Option<Session>)
      ensures profile == None && !loading && this.session == session && requests == []
    {
      profile := None;
      loading := false;
      this.session := session;
      requests := [];
    }

    /**
     * Without a session: clear the profile and call nothing. With one: fetch
     * the profile with its token; an error keeps the old profile.
     */
    method FetchProfile(reply: Reply<Profile>)
      modifies this`profile, this`loading, this`requests
      ensures session.None? ==>
        profile == None && loading == old(loading) && requests == old(requests)
      ensures session.Some? ==>
        && profile == (if reply.Failure? then old(profile) else reply.data)
        && !loading
        && requests == old(requests) + [Request(GET, session.value.accessToken)]
    {
      if session.None? {
        profile := None;
        return;
      }
      loading := true;
      requests := requests + [Request(GET, session.value.accessToken)];
      match reply {
        case Failure(_) =>
        case Success(data) =>
          profile := data;
      }
      loading := false;
    }

    method ClearProfile()
      modifies this`profile
      ensures profile == None
    {
      profile := None;
    }

    /** The session watcher: a session that becomes absent clears the profile. */
    method OnSessionChange(newSession: Option<Session>)
      modifies this`session, this`profile
      ensures session == newSession
      ensures profile == if newSession.None? then None else old(profile)
    {
      session := newSession;
      if newSession.None? {
        ClearProfile();
      }
    }
  }

  /** Signing out clears the profile, and a later fetch neither calls the server nor restores it. */
  method SignOutThenFetch(store: UserStore, reply: Reply<Profile>)
    modifies store
    ensures store.session == None && store.profile == None
    ensures store.requests == old(store.requests) && store.loading == old(store.loading)
  {
    store.OnSessionChange(None);
    store.FetchProfile(reply);
  }
}
