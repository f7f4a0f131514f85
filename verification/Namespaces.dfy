/** The tenancy key of a memory and the prefixes the caches are keyed by. */
module Namespaces {
  import opened Text

  datatype Visibility = Private | Shared

  /** No component contains a slash. */
  datatype Slots = Slots(org: string, workspace: string, user: string, session: string, visibility: Visibility)

  predicate NoSlash(s: string) {
    '/' !in s
  }

  type Namespace = n: Slots | NoSlash(n.org) && NoSlash(n.workspace) && NoSlash(n.user) && NoSlash(n.session)
    witness Slots("o", "w", "u", "s", Private)

  function VisibilityValue(v: Visibility): string {
    if v.Private? then "private" else "shared"
  }

  function UserSlot(ns: Namespace): string {
    if ns.visibility == Shared then "*" else ns.user
  }

  /** The grain recall federates over: the full prefix without the session. */
  function UserPrefix(ns: Namespace): string {
    "mu/" + ns.org + "/" + ns.workspace + "/" + VisibilityValue(ns.visibility) + "/" + UserSlot(ns)
  }

  function ToPrefix(ns: Namespace): string {
    UserPrefix(ns) + "/" + ns.session
  }

  /** The part of a key before its last slash. */
  function CohortOf(key: string): string {
    if key == "" then ""
    else if key[|key| - 1] == '/' then key[..|key| - 1]
    else CohortOf(key[..|key| - 1])
  }

  /** The part of a key after its last slash. */
  function SessionOf(key: string): string {
    if key == "" || key[|key| - 1] == '/' then ""
    else SessionOf(key[..|key| - 1]) + [key[|key| - 1]]
  }

  lemma {:induction false} LastSlash(before: string, after: string)
    requires NoSlash(after)
    ensures CohortOf(before + "/" + after) == before && SessionOf(before + "/" + after) == after
  {
    var key := before + "/" + after;
    if after == "" {
      assert key[..|key| - 1] == before;
    } else {
      assert key[..|key| - 1] == before + "/" + after[..|after| - 1];
      LastSlash(before, after[..|after| - 1]);
    }
  }

  /** A key can be taken apart again. */
  lemma PrefixParts(ns: Namespace)
    ensures CohortOf(ToPrefix(ns)) == UserPrefix(ns) && SessionOf(ToPrefix(ns)) == ns.session
  {
    LastSlash(UserPrefix(ns), ns.session);
  }

  /** The same tenant and plane and, on the private plane, the same user: all users share the shared one. */
  predicate SameUser(a: Namespace, b: Namespace) {
    && a.org == b.org && a.workspace == b.workspace && a.visibility == b.visibility
    && (a.visibility == Shared || a.user == b.user)
  }

  /** Two namespaces share a cohort exactly when they are of the same user. */
  lemma CohortsSeparateTenants(a: Namespace, b: Namespace)
    ensures UserPrefix(a) == UserPrefix(b) <==> SameUser(a, b)
  {
    if UserPrefix(a) == UserPrefix(b) {
      SplitLast("mu/" + a.org + "/" + a.workspace + "/" + VisibilityValue(a.visibility), UserSlot(a),
                "mu/" + b.org + "/" + b.workspace + "/" + VisibilityValue(b.visibility), UserSlot(b), '/');
      SplitLast("mu/" + a.org + "/" + a.workspace, VisibilityValue(a.visibility),
                "mu/" + b.org + "/" + b.workspace, VisibilityValue(b.visibility), '/');
      assert VisibilityValue(Private) != VisibilityValue(Shared);
      SplitLast("mu/" + a.org, a.workspace, "mu/" + b.org, b.workspace, '/');
      assert "mu" + ['/'] + a.org == "mu/" + a.org && "mu" + ['/'] + b.org == "mu/" + b.org;
      SplitLast("mu", a.org, "mu", b.org, '/');
    }
  }

  /** A bare session id can never be taken for a full key. */
  lemma SessionIsNoPrefix(ns: Namespace, session: string)
    requires NoSlash(session)
    ensures ToPrefix(ns) != session
  {
    assert ToPrefix(ns)[|UserPrefix(ns)|] == '/';
  }
}
