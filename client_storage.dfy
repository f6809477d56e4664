/** Browser state shared by the client modules: the two `localStorage` entries and axios's
    default `Authorization` header (`axios.defaults.headers.common['Authorization']`). */
module ClientStorage {
  import opened Common

  class Browser {
    var accessToken: Option<string>
    var refreshToken: Option<string>
    var authorization: Option<string>

    /** A page load: whatever `localStorage` holds survives, the header starts unset. */
    constructor (accessToken: Option<string>, refreshToken: Option<string>)
      ensures this.accessToken == accessToken && this.refreshToken == refreshToken
      ensures authorization == None
    {
      this.accessToken := accessToken;
      this.refreshToken := refreshToken;
      authorization := None;
    }
  }
}
