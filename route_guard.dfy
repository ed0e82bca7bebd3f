/** The request middleware that guards the account and "post an ad" pages
    (src/middleware.ts). */
module RouteGuard {
  import opened Text

  const ProtectedPaths: seq<string> :=
    ["/post", "/post/attributes", "/profile", "/profile/edit", "/my-ads", "/my-favorites"]

  /** Pages of the post flow that need the `post_category` cookie. */
  const PostFlowPaths: seq<string> := ["/post/attributes"]

  /** `prefixes.some(p => path.startsWith(p))` */
  function StartsWithAny(path: string, prefixes: seq<string>): (r: bool)
    ensures r <==> exists i :: 0 <= i < |prefixes| && StartsWith(path, prefixes[i])
  {
    if prefixes == [] then false
    else StartsWith(path, prefixes[0]) || StartsWithAny(path, prefixes[1..])
  }

  predicate IsProtected(pathname: string) {
    StartsWithAny(pathname, ProtectedPaths)
  }

  predicate IsPostFlowPath(pathname: string) {
    StartsWithAny(pathname, PostFlowPaths)
  }

  datatype Decision = Next | Redirect(target: string)

  /** `middleware`: the cookies matter only through their presence. */
  function Middleware(pathname: string, hasLoginCookie: bool, hasPostCategoryCookie: bool): (d: Decision)
    ensures d == Next || d == Redirect("/") || d == Redirect("/post")
  {
    if IsProtected(pathname) then
      if !hasLoginCookie then Redirect("/")
      else if IsPostFlowPath(pathname) && !hasPostCategoryCookie then Redirect("/post")
      else Next
    else Next
  }

  lemma StartsWithTransitive(s: string, p: string, q: string)
    requires StartsWith(s, p) && StartsWith(p, q)
    ensures StartsWith(s, q)
  {
    assert s[..|q|] == s[..|p|][..|q|];
  }

  /** The six prefixes collapse to four, since the longer ones extend shorter ones. */
  lemma ProtectedIff(pathname: string)
    ensures IsProtected(pathname) <==>
              || StartsWith(pathname, "/post") || StartsWith(pathname, "/profile")
              || StartsWith(pathname, "/my-ads") || StartsWith(pathname, "/my-favorites")
  {
    if StartsWith(pathname, "/post/attributes") {
      StartsWithTransitive(pathname, "/post/attributes", "/post");
    }
    if StartsWith(pathname, "/profile/edit") {
      StartsWithTransitive(pathname, "/profile/edit", "/profile");
    }
    if StartsWith(pathname, "/post") {
      assert StartsWith(pathname, ProtectedPaths[0]);
    }
    if StartsWith(pathname, "/profile") {
      assert StartsWith(pathname, ProtectedPaths[2]);
    }
    if StartsWith(pathname, "/my-ads") {
      assert StartsWith(pathname, ProtectedPaths[4]);
    }
    if StartsWith(pathname, "/my-favorites") {
      assert StartsWith(pathname, ProtectedPaths[5]);
    }
  }

  /** A plain prefix test: "/postx" is protected too. */
  lemma PrefixNotSegment()
    ensures IsProtected("/postx") && IsProtected("/profile-public")
  {
    assert "/postx"[..5] == ProtectedPaths[0];
    assert "/profile-public"[..8] == ProtectedPaths[2];
  }

  lemma UnprotectedPassesThrough(pathname: string, hasLogin: bool, hasPostCategory: bool)
    requires !IsProtected(pathname)
    ensures Middleware(pathname, hasLogin, hasPostCategory) == Next
  {
  }

  /** Without the login cookie a protected page redirects home, before the post-flow test. */
  lemma NotLoggedInGoesHome(pathname: string, hasPostCategory: bool)
    requires IsProtected(pathname)
    ensures Middleware(pathname, false, hasPostCategory) == Redirect("/")
  {
  }

  /** The complete redirect-home rule: a logged-in request is never sent home, whatever the
      path. With `PostRedirectIff` and `UnprotectedPassesThrough` this fixes every decision. */
  lemma HomeRedirectIff(pathname: string, hasLogin: bool, hasPostCategory: bool)
    ensures Middleware(pathname, hasLogin, hasPostCategory) == Redirect("/") <==>
              IsProtected(pathname) && !hasLogin
  {
  }

  /** The complete redirect-to-"/post" rule. */
  lemma PostRedirectIff(pathname: string, hasLogin: bool, hasPostCategory: bool)
    ensures Middleware(pathname, hasLogin, hasPostCategory) == Redirect("/post") <==>
              hasLogin && !hasPostCategory && StartsWith(pathname, "/post/attributes")
  {
    if StartsWith(pathname, "/post/attributes") {
      StartsWithTransitive(pathname, "/post/attributes", "/post");
      ProtectedIff(pathname);
    }
  }

  /** An unauthenticated request to the attributes page goes home, not to "/post". */
  lemma AttributesWithoutLogin()
    ensures Middleware("/post/attributes", false, false) == Redirect("/")
    ensures Middleware("/post/attributes", false, true) == Redirect("/")
  {
    ProtectedIff("/post/attributes");
  }

  /** Following either redirect of a logged-in user ends at a page that lets the request through,
      so the rule never redirects twice. */
  lemma RedirectTargetsSettle(hasPostCategory: bool)
    ensures Middleware("/post", true, hasPostCategory) == Next
    ensures Middleware("/", true, hasPostCategory) == Next
    ensures Middleware("/", false, hasPostCategory) == Next
  {
    ProtectedIff("/");
    PostRedirectIff("/post", true, hasPostCategory);
  }
}
