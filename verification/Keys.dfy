/** String keys shared by the catalog, the health table and the learning table.
    A route is named by `provider + "/" + model`; provider identifiers never contain a
    slash, so the name determines both parts. */
module Keys {

  datatype Option<+T> = None | Some(value: T)

  /** Instants are counted from the zero time, which no clock reading precedes. */
  type Time = nat
  const ZERO_TIME: Time := 0
  const SECOND: nat := 1_000_000_000
  const MINUTE: nat := 60 * SECOND
  const HOUR: nat := 60 * MINUTE

  function Min(a: nat, b: nat): nat { if a < b then a else b }

  function RouteKey(provider: string, id: string): string { provider + "/" + id }

  predicate SlashFree(s: string) { '/' !in s }

  /** Position of the first slash, or the length when there is none. */
  function FirstSlash(s: string): (i: nat)
    ensures i <= |s|
    ensures forall k :: 0 <= k < i ==> s[k] != '/'
    ensures i < |s| ==> s[i] == '/'
  {
    if s == "" || s[0] == '/' then 0 else 1 + FirstSlash(s[1..])
  }

  /** The two parts of `strings.SplitN(key, "/", 2)`, when there are two. */
  function SplitKey(key: string): Option<(string, string)> {
    var i := FirstSlash(key);
    if i < |key| then Some((key[..i], key[i + 1..])) else None
  }

  lemma {:induction false} FirstSlashOfKey(p: string, m: string)
    requires SlashFree(p)
    ensures FirstSlash(RouteKey(p, m)) == |p|
  {
    if p != "" {
      assert RouteKey(p, m)[1..] == RouteKey(p[1..], m);
      FirstSlashOfKey(p[1..], m);
    }
  }

  lemma SplitRouteKey(p: string, m: string)
    requires SlashFree(p)
    ensures SplitKey(RouteKey(p, m)) == Some((p, m))
  {
    FirstSlashOfKey(p, m);
    assert RouteKey(p, m)[..|p|] == p && RouteKey(p, m)[|p| + 1..] == m;
  }

  /** Two routes with the same key are the same route. */
  lemma RouteKeyInjective(p1: string, m1: string, p2: string, m2: string)
    requires SlashFree(p1) && SlashFree(p2)
    requires RouteKey(p1, m1) == RouteKey(p2, m2)
    ensures p1 == p2 && m1 == m2
  {
    SplitRouteKey(p1, m1);
    SplitRouteKey(p2, m2);
  }

  lemma JoinSplitKey(key: string)
    requires SplitKey(key).Some?
    ensures RouteKey(SplitKey(key).value.0, SplitKey(key).value.1) == key
    ensures SlashFree(SplitKey(key).value.0)
  {
  }

  /** One more element looked at: how many of the marked ones have been. */
  lemma OneMoreDone(marked: set<string>, todo: set<string>, id: string)
    requires id in todo
    ensures |marked - (todo - {id})| == |marked - todo| + (if id in marked then 1 else 0)
  {
    assert marked - (todo - {id}) == (marked - todo) + (if id in marked then {id} else {});
  }

  function Lookup(m: map<string, bool>, key: string): bool { key in m && m[key] }
}
