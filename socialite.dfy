/**
 * The user object an OAuth provider adapter hands back after the code exchange.
 */
module Socialite {
  import opened Wrappers

  /** The provider's view of the remote user, with the latest tokens. */
  datatype SocialUser = SocialUser(
    id: Option<string>,
    nickname: Option<string>,
    name: Option<string>,
    email: Option<string>,
    avatar: Option<string>,
    token: Option<string>,
    refreshToken: Option<string>,
    tokenSecret: Option<string>,
    expiresIn: Option<int>,
    raw: map<string, string>)
}
