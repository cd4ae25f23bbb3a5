/** Dependent discovery: the `.filter` over the supervisor's process list
    that keeps the applications tagged with the parent's name. */
module Discovery {

  import opened Wrappers
  import opened Js

  /** One entry of the supervisor's process list: `app.name`, `app.pm_id`
      and `app.pm2_env` (absent, or an object). */
  datatype App = App(name: JsValue, pmId: JsValue, pm2Env: Option<JsObject>)

  /** The filter's predicate: `app.pm2_env` is present, its tag is strictly
      equal to the parent's name, and the app's own name is not. A child
      actually carries the tag unless the parent's name is `undefined`, and
      a parent whose name is NaN has no children. */
  predicate IsChildOf(tagKey: string, parentName: JsValue, app: App)
    ensures IsChildOf(tagKey, parentName, app) ==>
      && app.pm2Env.Some?
      && Get(app.pm2Env.value, tagKey) == parentName && parentName != NaN
      && app.name != parentName
    ensures IsChildOf(tagKey, parentName, app) && parentName != Undefined ==> tagKey in app.pm2Env.value
  {
    && app.pm2Env.Some?
    && StrictEquals(Get(app.pm2Env.value, tagKey), parentName)
    && !StrictEquals(app.name, parentName)
  }

  /** `r` is obtained from `s` by deleting zero or more elements. */
  predicate IsSubsequence<T(==)>(r: seq<T>, s: seq<T>)
    decreases |s|
  {
    if r == [] then true
    else if s == [] then false
    else (r[0] == s[0] && IsSubsequence(r[1..], s[1..])) || IsSubsequence(r, s[1..])
  }

  /** The dependents of `parentName`, in the order the supervisor listed them. */
  function ChildApps(tagKey: string, parentName: JsValue, apps: seq<App>): (children: seq<App>)
    ensures |children| <= |apps|
    ensures forall i :: 0 <= i < |children| ==> children[i] in apps && IsChildOf(tagKey, parentName, children[i])
  {
    if apps == [] then []
    else
      var rest := ChildApps(tagKey, parentName, apps[1..]);
      if IsChildOf(tagKey, parentName, apps[0]) then [apps[0]] + rest else rest
  }

  /** An app is a dependent exactly when it is in the list and meets the
      filter's predicate; in particular no dependent carries the parent's
      name and no app without `pm2_env` is one. */
  lemma {:induction false} ChildAppsMembership(tagKey: string, parentName: JsValue, apps: seq<App>, a: App)
    ensures a in ChildApps(tagKey, parentName, apps) <==> a in apps && IsChildOf(tagKey, parentName, a)
    ensures a in ChildApps(tagKey, parentName, apps) ==> a.pm2Env.Some? && !StrictEquals(a.name, parentName)
  {
    if apps != [] {
      ChildAppsMembership(tagKey, parentName, apps[1..], a);
      assert a in apps <==> a == apps[0] || a in apps[1..];
    }
  }

  /** Discovery keeps the supervisor's order: the dependents are a
      subsequence of the process list. */
  lemma {:induction false} ChildAppsIsSubsequence(tagKey: string, parentName: JsValue, apps: seq<App>)
    ensures IsSubsequence(ChildApps(tagKey, parentName, apps), apps)
  {
    if apps != [] {
      var rest := ChildApps(tagKey, parentName, apps[1..]);
      ChildAppsIsSubsequence(tagKey, parentName, apps[1..]);
      if IsChildOf(tagKey, parentName, apps[0]) {
        assert ([apps[0]] + rest)[1..] == rest;
      } else if rest != [] {
        assert IsSubsequence(rest, apps[1..]);
      }
    }
  }

  lemma {:induction false} SubsequenceOfLonger<T>(r: seq<T>, x: T, s: seq<T>)
    requires IsSubsequence(r, s)
    ensures IsSubsequence(r, [x] + s)
  {
  }

  lemma {:induction false} SubsequenceLength<T>(r: seq<T>, s: seq<T>)
    requires IsSubsequence(r, s)
    ensures |r| <= |s|
    decreases |s|
  {
    if r != [] {
      if r[0] == s[0] && IsSubsequence(r[1..], s[1..]) {
        SubsequenceLength(r[1..], s[1..]);
      } else {
        SubsequenceLength(r, s[1..]);
      }
    }
  }

  /** A subsequence at least as long as the sequence is the sequence. */
  lemma {:induction false} SubsequenceOfEqualLength<T>(r: seq<T>, s: seq<T>)
    requires IsSubsequence(r, s) && |r| >= |s|
    ensures r == s
    decreases |s|
  {
    if r != [] {
      if r[0] == s[0] && IsSubsequence(r[1..], s[1..]) {
        SubsequenceOfEqualLength(r[1..], s[1..]);
        assert r == [r[0]] + r[1..];
        assert s == [s[0]] + s[1..];
      } else {
        SubsequenceLength(r, s[1..]);
      }
    }
  }

  /** Every subsequence of the process list made only of dependents is a
      subsequence of the discovered list: discovery drops no dependent. */
  lemma {:induction false} ChildAppsIsGreatest(tagKey: string, parentName: JsValue, apps: seq<App>, r: seq<App>)
    requires IsSubsequence(r, apps)
    requires forall i :: 0 <= i < |r| ==> IsChildOf(tagKey, parentName, r[i])
    ensures IsSubsequence(r, ChildApps(tagKey, parentName, apps))
  {
    if r != [] {
      var rest := ChildApps(tagKey, parentName, apps[1..]);
      if r[0] == apps[0] && IsSubsequence(r[1..], apps[1..]) {
        ChildAppsIsGreatest(tagKey, parentName, apps[1..], r[1..]);
        assert IsChildOf(tagKey, parentName, r[0]);
        assert ([apps[0]] + rest)[1..] == rest;
      } else {
        ChildAppsIsGreatest(tagKey, parentName, apps[1..], r);
        if IsChildOf(tagKey, parentName, apps[0]) {
          SubsequenceOfLonger(r, apps[0], rest);
        }
      }
    }
  }

  /** The discovered list is THE order-preserving subsequence of dependents:
      any subsequence of the process list that holds only dependents and is
      no shorter than it is equal to it. */
  lemma ChildAppsUnique(tagKey: string, parentName: JsValue, apps: seq<App>, r: seq<App>)
    requires IsSubsequence(r, apps)
    requires forall i :: 0 <= i < |r| ==> IsChildOf(tagKey, parentName, r[i])
    requires |r| >= |ChildApps(tagKey, parentName, apps)|
    ensures r == ChildApps(tagKey, parentName, apps)
  {
    ChildAppsIsGreatest(tagKey, parentName, apps, r);
    SubsequenceOfEqualLength(r, ChildApps(tagKey, parentName, apps));
  }
}
