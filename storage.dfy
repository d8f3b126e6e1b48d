/** The browser storage the services read and write, one field per storage key. */
module Storage {
  import opened Wrappers
  import opened Types

  class WebStorage {
    /** localStorage 'xylos_ai_users': services/authApi.ts, components/AuthPage.tsx and App.tsx. */
    var users: seq<User>
    /** localStorage 'xylos_ai_users_db': services/database.ts and services/api.ts. */
    var usersDb: seq<User>
    /** localStorage 'xylos_ai_auth_token': services/api.ts. */
    var authToken: Option<string>
    /** sessionStorage 'xylos_ai_active_user': App.tsx. */
    var activeUser: Option<string>

    /** A fresh browser profile: every key is missing, and a missing table reads as empty. */
    constructor ()
      ensures users == [] && usersDb == [] && authToken == None && activeUser == None
    {
      users := [];
      usersDb := [];
      authToken := None;
      activeUser := None;
    }
  }
}
