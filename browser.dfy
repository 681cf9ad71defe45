/**
 * The browser globals the code touches, as plain fields: the `auth_token`
 * entry of localStorage, `window.location.pathname`, and the last value
 * assigned to `window.location.href` (assigning it starts a full page load).
 */
module Browser {
  import opened Js

  const TokenKey := "auth_token"

  class Window {
    /** localStorage.getItem('auth_token'); None when the key is absent. */
    var authToken: Option<string>
    /** window.location.pathname of the current page. */
    var pathname: string
    /** The last value assigned to window.location.href, None while none was. */
    var href: Option<string>

    constructor (token: Option<string>, path: string)
      ensures authToken == token && pathname == path && href == None
    {
      authToken := token;
      pathname := path;
      href := None;
    }
  }
}
