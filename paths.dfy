/**
 * Firestore collection paths of the console. Both components build
 * `artifacts/{appId}/users/{userId}/{rules|violations}` and give `null`
 * when the database handle or the signed-in user is missing.
 */
module Paths {
  import opened Wrappers

  datatype Kind = Rules | Violations

  /** The collection a path names: the deployment, the user and the entity type. */
  datatype CollectionKey = CollectionKey(appId: string, userId: string, kind: Kind)

  /** The application id used when the hosting page injects none. */
  const DEFAULT_APP_ID := "default-app-id"

  function Segment(kind: Kind): string
  {
    match kind
    case Rules => "rules"
    case Violations => "violations"
  }

  /**
   * `typeof __app_id !== 'undefined' ? __app_id : 'default-app-id'`: an injected
   * id is used as it is, even when it is empty.
   */
  function ResolveAppId(injected: Option<string>): (r: string)
    ensures injected.Some? ==> r == injected.value
    ensures injected.None? ==> r == DEFAULT_APP_ID
  {
    injected.GetOr(DEFAULT_APP_ID)
  }

  /** JavaScript truthiness of the user id: neither `null` nor the empty string. */
  predicate Present(userId: Option<string>)
  {
    userId.Some? && userId.value != ""
  }

  function PathOf(key: CollectionKey): string
  {
    "artifacts" + "/" + (key.appId + "/" + ("users" + "/" + (key.userId + "/" + Segment(key.kind))))
  }

  /** `getRulesCollectionRef` / `getViolationsCollectionRef`. */
  function CollectionPath(dbReady: bool, appId: string, userId: Option<string>, kind: Kind): (r: Option<string>)
    ensures r.Some? <==> dbReady && Present(userId)
    ensures r.Some? ==> r.value == PathOf(CollectionKey(appId, userId.value, kind))
  {
    if !dbReady || !Present(userId) then None
    else Some(PathOf(CollectionKey(appId, userId.value, kind)))
  }

  /** `s.split('/')`. */
  function Split(s: string): (r: seq<string>)
    ensures |r| >= 1
  {
    if s == [] then [""]
    else if s[0] == '/' then [""] + Split(s[1..])
    else var rest := Split(s[1..]); [[s[0]] + rest[0]] + rest[1..]
  }

  lemma {:induction false} SplitNoSlash(a: string)
    requires '/' !in a
    ensures Split(a) == [a]
  {
    if a != [] {
      SplitNoSlash(a[1..]);
      assert [a[0]] + a[1..] == a;
    }
  }

  lemma {:induction false} SplitAtSlash(a: string, b: string)
    requires '/' !in a
    ensures Split(a + "/" + b) == [a] + Split(b)
  {
    if a == [] {
      assert a + "/" + b == "/" + b;
      assert ("/" + b)[1..] == b;
    } else {
      SplitAtSlash(a[1..], b);
      assert (a + "/" + b)[1..] == a[1..] + "/" + b;
      assert [a[0]] + a[1..] == a;
    }
  }

  /** Reads a collection path back into the deployment, user and entity type it names. */
  function ParsePath(p: string): Option<CollectionKey>
  {
    var segs := Split(p);
    if |segs| == 5 && segs[0] == "artifacts" && segs[2] == "users" then
      if segs[4] == "rules" then Some(CollectionKey(segs[1], segs[3], Rules))
      else if segs[4] == "violations" then Some(CollectionKey(segs[1], segs[3], Violations))
      else None
    else None
  }

  /** The five segments of a collection path whose ids hold no `/`. */
  lemma PathSegments(key: CollectionKey)
    requires '/' !in key.appId && '/' !in key.userId
    ensures Split(PathOf(key)) == ["artifacts", key.appId, "users", key.userId, Segment(key.kind)]
  {
    var seg := Segment(key.kind);
    var t3 := key.userId + "/" + seg;
    var t2 := "users" + "/" + t3;
    var t1 := key.appId + "/" + t2;
    assert PathOf(key) == "artifacts" + "/" + t1;
    SplitNoSlash(seg);
    SplitAtSlash(key.userId, seg);
    assert Split(t3) == [key.userId, seg];
    SplitAtSlash("users", t3);
    SplitAtSlash(key.appId, t2);
    SplitAtSlash("artifacts", t1);
  }

  /** A collection key whose ids hold no `/` is recovered from its path. */
  lemma PathRoundTrip(key: CollectionKey)
    requires '/' !in key.appId && '/' !in key.userId
    ensures ParsePath(PathOf(key)) == Some(key)
  {
    PathSegments(key);
  }

  /** A slash-free head is read off up to the first `/`. */
  lemma SlashPrefix(a1: string, r1: string, a2: string, r2: string)
    requires '/' !in a1 && '/' !in a2
    requires a1 + "/" + r1 == a2 + "/" + r2
    ensures a1 == a2 && r1 == r2
  {
    HeadNotLonger(a1, r1, a2, r2);
    HeadNotLonger(a2, r2, a1, r1);
    var p := a1 + "/" + r1;
    assert a1 == p[..|a1|] == a2;
    assert r1 == p[|a1| + 1..] == r2;
  }

  /** The first `/` of a text cannot fall inside a slash-free head. */
  lemma HeadNotLonger(a1: string, r1: string, a2: string, r2: string)
    requires '/' !in a2
    requires a1 + "/" + r1 == a2 + "/" + r2
    ensures |a2| <= |a1|
  {
    if |a1| < |a2| {
      LongerHeadHoldsSlash(a1, r1, a2, r2);
    }
  }

  /** Of two ways to split one text at a `/`, the longer head holds the other split's `/`. */
  lemma LongerHeadHoldsSlash(a1: string, r1: string, a2: string, r2: string)
    requires a1 + "/" + r1 == a2 + "/" + r2 && |a1| < |a2|
    ensures '/' in a2
  {
    var p := a1 + "/" + r1;
    assert p[|a1|] == '/';
    assert a2[|a1|] == p[|a1|];
  }

  /** A slash-free tail is read off after the last `/`. */
  lemma SlashSuffix(x1: string, s1: string, x2: string, s2: string)
    requires '/' !in s1 && '/' !in s2
    requires x1 + "/" + s1 == x2 + "/" + s2
    ensures x1 == x2 && s1 == s2
  {
    TailNotShorter(x1, s1, x2, s2);
    TailNotShorter(x2, s2, x1, s1);
    var p := x1 + "/" + s1;
    assert s1 == p[|p| - |s1|..] == s2;
    assert x1 == p[..|x1|] == x2;
  }

  /** The last `/` of a text cannot fall inside a slash-free tail. */
  lemma TailNotShorter(x1: string, s1: string, x2: string, s2: string)
    requires '/' !in s2
    requires x1 + "/" + s1 == x2 + "/" + s2
    ensures |s2| <= |s1|
  {
    if |s1| < |s2| {
      LongerTailHoldsSlash(x1, s1, x2, s2);
    }
  }

  /** Of two ways to split one text at a `/`, the longer tail holds the other split's `/`. */
  lemma LongerTailHoldsSlash(x1: string, s1: string, x2: string, s2: string)
    requires x1 + "/" + s1 == x2 + "/" + s2 && |s1| < |s2|
    ensures '/' in s2
  {
    var p := x1 + "/" + s1;
    var k := |x1|;
    assert p[k] == '/';
    assert s2[k - |x2| - 1] == p[k];
  }

  /**
   * Within one deployment, two different users, or the two entity types of
   * one user, never share a collection. Nothing is asked of the user ids:
   * the last segment fixes the entity type and what stands before it the user.
   */
  lemma SameAppIsolated(a: CollectionKey, b: CollectionKey)
    requires a.appId == b.appId && a != b
    ensures PathOf(a) != PathOf(b)
  {
    if PathOf(a) == PathOf(b) {
      var head := "artifacts" + "/" + a.appId + "/" + "users" + "/";
      assert PathOf(a) == head + (a.userId + "/" + Segment(a.kind));
      assert PathOf(b) == head + (b.userId + "/" + Segment(b.kind));
      assert a.userId + "/" + Segment(a.kind) == (head + (a.userId + "/" + Segment(a.kind)))[|head|..];
      assert b.userId + "/" + Segment(b.kind) == (head + (b.userId + "/" + Segment(b.kind)))[|head|..];
      SlashSuffix(a.userId, Segment(a.kind), b.userId, Segment(b.kind));
      assert false;
    }
  }

  /**
   * Per-deployment and per-user isolation: once the application ids hold no
   * `/`, two different (deployment, user, entity type) keys never share a
   * collection, whatever the user ids are.
   */
  lemma CollectionsAreIsolated(a: CollectionKey, b: CollectionKey)
    requires '/' !in a.appId && '/' !in b.appId
    requires a != b
    ensures PathOf(a) != PathOf(b)
  {
    if PathOf(a) == PathOf(b) {
      var ra := "users" + "/" + (a.userId + "/" + Segment(a.kind));
      var rb := "users" + "/" + (b.userId + "/" + Segment(b.kind));
      assert PathOf(a) == "artifacts" + "/" + (a.appId + "/" + ra);
      assert PathOf(b) == "artifacts" + "/" + (b.appId + "/" + rb);
      SlashPrefix("artifacts", a.appId + "/" + ra, "artifacts", b.appId + "/" + rb);
      SlashPrefix(a.appId, ra, b.appId, rb);
      SameAppIsolated(a, b);
    }
  }

  /**
   * Without that condition isolation fails: a `/` in the application id lets
   * two different keys build the same path.
   */
  lemma SlashedAppIdsCollide()
    ensures var a := CollectionKey("p/users/q", "r", Rules);
      var b := CollectionKey("p", "q/users/r", Rules);
      a != b && PathOf(a) == PathOf(b)
  {
    var a := CollectionKey("p/users/q", "r", Rules);
    var b := CollectionKey("p", "q/users/r", Rules);
    assert a.appId != b.appId;
    assert PathOf(a) == "artifacts/" + "p/users/q/users/r" + "/rules" == PathOf(b);
  }
}
