/** The grant and its extension data (primitives/grant.rs). */
module Grants {
  import opened Prelude
  import opened Scopes

  /** A parsed url, represented by its serialised text. */
  datatype Url = Url(text: string)

  datatype Value = Public(content: Option<string>) | Private(content: Option<string>)

  type Extensions = map<string, Value>

  datatype Grant = Grant(
    owner: string,
    client: string,
    scope: Scope,
    redirect: Url,
    until: Time,
    extensions: Extensions)

  /** The same owner consenting to the same client, redirect url and scope. */
  predicate SameAuthorization(g: Grant, h: Grant) {
    g.owner == h.owner && g.client == h.client && g.redirect == h.redirect && g.scope == h.scope
  }

  /** `g` may stand where `root` was first issued: nothing but the expiry differs, except a smaller scope. */
  predicate Narrows(g: Grant, root: Grant) {
    && g.owner == root.owner
    && g.client == root.client
    && g.redirect == root.redirect
    && g.extensions == root.extensions
    && g.scope.tokens <= root.scope.tokens
  }

  predicate SameButUntil(g: Grant, h: Grant) {
    g == h.(until := g.until)
  }
}
