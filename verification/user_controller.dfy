/**
  What `User_Controller` adds to the shared controller: the API-token gate.
  Its constructor and `verifyLogin` are those of `LoginGate`, and its `render`
  only delegates to the base class's.
 */
module UserController {
  import opened Wrappers
  import opened Php
  import opened Request
  import opened Controller

  const TokenKey := "X_API_TOKEN"

  /**
    `verify_token`: redirects to the site's login url unless the session holds a
    truthy `X_API_TOKEN`; a missing token, '' and '0' are all refused.
   */
  function VerifyToken(ctx: Context, userdata: map<string, string>): (r: Run<()>)
    ensures r.effects == []
    ensures r.Returned() <==> TokenKey in userdata && !IsEmptyString(userdata[TokenKey])
    ensures !r.Returned() ==> r.RedirectedTo(ctx.siteConfig.loginUrl)
  {
    var token := if TokenKey in userdata then Some(userdata[TokenKey]) else None;
    if IsEmptyValue(token) then Run([], Exited(Redirect(ctx.siteConfig.loginUrl)))
    else Run([], Done(()))
  }

  /** A token of "0" is refused like a missing one, while any other non-empty token passes. */
  lemma ZeroTokenRefused(ctx: Context, userdata: map<string, string>, token: string)
    requires token != "" && token != "0"
    ensures !VerifyToken(ctx, userdata[TokenKey := "0"]).Returned()
    ensures VerifyToken(ctx, userdata[TokenKey := "0"]) == VerifyToken(ctx, userdata - {TokenKey})
    ensures VerifyToken(ctx, userdata[TokenKey := token]).Returned()
  {
  }
}
