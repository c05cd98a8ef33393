/** middleware.ts: the request-path gate in front of every page and API route. */
module Middleware {
  import opened Wrappers
  import opened Js
  import opened Domain

  const PublicPaths: seq<string> := ["/", "/login", "/register", "/api/auth/register", "/api/health"]

  /** Public: one of the listed paths, or anything under the "/api/auth" prefix
      (for any listed path, so for all of them once the list is non-empty). */
  predicate IsPublic(path: string)
  {
    exists i :: 0 <= i < |PublicPaths| && (path == PublicPaths[i] || StartsWith(path, "/api/auth"))
  }

  datatype Decision =
    | RedirectToLogin
    | RedirectToDashboard
    | ForbiddenJson
    | Proceed

  /** `middleware(req)`. `token` is what `getToken` found, if anything; its
      role is the role stored at sign-in. */
  function Decide(path: string, token: Option<Token>): (d: Decision)
    ensures d == RedirectToLogin <==> token.None? && !IsPublic(path)
    ensures d == RedirectToDashboard <==>
      (token.Some? || IsPublic(path)) && StartsWith(path, "/admin") && !(token.Some? && token.value.role == Some(Role.ADMIN))
    ensures d == ForbiddenJson <==>
      (token.Some? || IsPublic(path)) && !StartsWith(path, "/admin") && StartsWith(path, "/api/admin")
      && !(token.Some? && token.value.role == Some(Role.ADMIN))
    ensures token.Some? && token.value.role == Some(Role.ADMIN) ==> d == Proceed
  {
    if token.None? && !IsPublic(path) then RedirectToLogin
    else if StartsWith(path, "/admin") && !(token.Some? && token.value.role == Some(Role.ADMIN)) then RedirectToDashboard
    else if StartsWith(path, "/api/admin") && !(token.Some? && token.value.role == Some(Role.ADMIN)) then ForbiddenJson
    else Proceed
  }

  /** The public test is exactly: one of the five paths, or the "/api/auth"
      prefix, which also admits paths such as "/api/authx". */
  lemma PublicCharacterised(path: string)
    ensures IsPublic(path) <==> path in PublicPaths || StartsWith(path, "/api/auth")
  {
    if StartsWith(path, "/api/auth") {
      assert path == PublicPaths[0] || StartsWith(path, "/api/auth");
    }
  }

  lemma AuthPrefixIsPublic()
    ensures IsPublic("/api/authx")
  {
    assert StartsWith("/api/authx", "/api/auth");
    assert "/api/authx" == PublicPaths[0] || StartsWith("/api/authx", "/api/auth");
  }

  /** No admin path is public, so an anonymous request to one goes to the
      login page before either admin gate is consulted. */
  lemma AnonymousAdminGoesToLogin(path: string)
    requires StartsWith(path, "/admin") || StartsWith(path, "/api/admin")
    ensures !IsPublic(path)
    ensures Decide(path, None) == RedirectToLogin
  {
    PublicCharacterised(path);
    if StartsWith(path, "/admin") {
      assert path[2] == 'd';
      assert "/api/auth"[2] == 'p';
    } else {
      assert path[6] == 'd';
      assert "/api/auth"[6] == 'u';
    }
    assert path !in PublicPaths;
  }
}
