/** `APIService`: each operation fills an endpoint template from `APIConstants` and delegates to
    `NetworkManager.request` with the default method and no parameters. A `Call` records that
    delegation. */
module APIService {
  import opened Wrappers
  import APIConstants
  import Decimal
  import NetworkManager

  /** The arguments an operation hands to `request`. */
  datatype Call = Call(endpoint: string, httpMethod: string, parameters: Option<NetworkManager.Parameters>)

  const IdPlaceholder := "{id}"

  /** `s.replacingOccurrences(of: target, with: replacement)`: scans left to right and replaces
      every non-overlapping occurrence of `target`. */
  function ReplacingOccurrences(s: string, target: string, replacement: string): string
    requires |target| > 0
    decreases |s|
  {
    if |s| < |target| then s
    else if s[..|target|] == target then replacement + ReplacingOccurrences(s[|target|..], target, replacement)
    else [s[0]] + ReplacingOccurrences(s[1..], target, replacement)
  }

  /** A prefix that does not contain the target's first character is copied unchanged. */
  lemma {:induction false} ReplaceSkipsPrefix(a: string, b: string, target: string, replacement: string)
    requires |target| > 0
    requires forall i | 0 <= i < |a| :: a[i] != target[0]
    ensures ReplacingOccurrences(a + b, target, replacement) == a + ReplacingOccurrences(b, target, replacement)
    decreases |a|
  {
    if a != [] {
      var s := a + b;
      var rest := ReplacingOccurrences(b, target, replacement);
      assert s[1..] == a[1..] + b;
      ReplaceSkipsPrefix(a[1..], b, target, replacement);
      if |s| < |target| {
        assert rest == b;
      } else {
        assert s[..|target|] != target by {
          assert s[..|target|][0] == a[0];
        }
        assert a == [a[0]] + a[1..];
        calc {
          ReplacingOccurrences(s, target, replacement);
          [a[0]] + ReplacingOccurrences(a[1..] + b, target, replacement);
          [a[0]] + (a[1..] + rest);
          a + rest;
        }
      }
    } else {
      assert a + b == b;
    }
  }

  /** An occurrence of the target at the front is replaced, and the scan goes on after it. */
  lemma ReplaceAtFront(b: string, target: string, replacement: string)
    requires |target| > 0
    ensures ReplacingOccurrences(target + b, target, replacement)
            == replacement + ReplacingOccurrences(b, target, replacement)
  {
    var s := target + b;
    assert s[..|target|] == target;
    assert s[|target|..] == b;
  }

  /** A string without the target's first character is left as it is. */
  lemma ReplaceAbsent(s: string, target: string, replacement: string)
    requires |target| > 0
    requires forall i | 0 <= i < |s| :: s[i] != target[0]
    ensures ReplacingOccurrences(s, target, replacement) == s
  {
    ReplaceSkipsPrefix(s, [], target, replacement);
    assert s + [] == s;
  }

  /** A template `prefix + target + suffix` with a single occurrence of the target is filled in. */
  lemma Substitute(prefix: string, suffix: string, target: string, replacement: string)
    requires |target| > 0
    requires forall i | 0 <= i < |prefix| :: prefix[i] != target[0]
    requires forall i | 0 <= i < |suffix| :: suffix[i] != target[0]
    ensures ReplacingOccurrences(prefix + target + suffix, target, replacement)
            == prefix + replacement + suffix
  {
    var tail := target + suffix;
    calc {
      ReplacingOccurrences(prefix + target + suffix, target, replacement);
      { assert prefix + target + suffix == prefix + tail; }
      ReplacingOccurrences(prefix + tail, target, replacement);
      { ReplaceSkipsPrefix(prefix, tail, target, replacement); }
      prefix + ReplacingOccurrences(tail, target, replacement);
      { ReplaceAtFront(suffix, target, replacement); }
      prefix + (replacement + ReplacingOccurrences(suffix, target, replacement));
      { ReplaceAbsent(suffix, target, replacement); }
      prefix + (replacement + suffix);
      prefix + replacement + suffix;
    }
  }

  function GetUsers(): (c: Call)
    ensures c == Call("/users", "GET", None)
  {
    Call(APIConstants.UsersEndpoint, APIConstants.Get, None)
  }

  function GetPosts(): (c: Call)
    ensures c == Call("/posts", "GET", None)
  {
    Call(APIConstants.PostsEndpoint, APIConstants.Get, None)
  }

  function GetUser(id: int): (c: Call)
    ensures c == Call("/users/" + Decimal.IntToString(id), "GET", None)
  {
    assert APIConstants.UserEndpoint == "/users/" + IdPlaceholder + "";
    Substitute("/users/", "", IdPlaceholder, Decimal.IntToString(id));
    Call(ReplacingOccurrences(APIConstants.UserEndpoint, IdPlaceholder, Decimal.IntToString(id)),
         APIConstants.Get, None)
  }

  function GetUserPosts(userId: int): (c: Call)
    ensures c == Call("/users/" + Decimal.IntToString(userId) + "/posts", "GET", None)
  {
    assert APIConstants.UserPostsEndpoint == "/users/" + IdPlaceholder + "/posts";
    Substitute("/users/", "/posts", IdPlaceholder, Decimal.IntToString(userId));
    Call(ReplacingOccurrences(APIConstants.UserPostsEndpoint, IdPlaceholder, Decimal.IntToString(userId)),
         APIConstants.Get, None)
  }

  predicate HasNoBrace(s: string) { forall i | 0 <= i < |s| :: s[i] != '{' }

  lemma ConcatHasNoBrace(a: string, b: string)
    requires HasNoBrace(a) && HasNoBrace(b)
    ensures HasNoBrace(a + b)
  {
    forall i | 0 <= i < |a + b| ensures (a + b)[i] != '{' {
      if i >= |a| {
        assert (a + b)[i] == b[i - |a|];
      }
    }
  }

  /** No filled-in endpoint still holds a placeholder: none holds a `{` at all. */
  lemma NoPlaceholderLeft(id: int)
    ensures HasNoBrace(GetUser(id).endpoint)
    ensures HasNoBrace(GetUserPosts(id).endpoint)
  {
    var d := Decimal.IntToString(id);
    assert HasNoBrace(d);
    ConcatHasNoBrace("/users/", d);
    ConcatHasNoBrace("/users/" + d, "/posts");
  }

  /** Different ids give different user endpoints. */
  lemma UserEndpointInjective(a: int, b: int)
    ensures GetUser(a).endpoint == GetUser(b).endpoint ==> a == b
  {
    var prefix := "/users/";
    if GetUser(a).endpoint == GetUser(b).endpoint {
      assert Decimal.IntToString(a) == GetUser(a).endpoint[|prefix|..];
      assert Decimal.IntToString(b) == GetUser(b).endpoint[|prefix|..];
      Decimal.IntToStringInjective(a, b);
    }
  }

  /** Different user ids give different user-posts endpoints. */
  lemma UserPostsEndpointInjective(a: int, b: int)
    ensures GetUserPosts(a).endpoint == GetUserPosts(b).endpoint ==> a == b
  {
    var da, db := Decimal.IntToString(a), Decimal.IntToString(b);
    var prefix := "/users/";
    if GetUserPosts(a).endpoint == GetUserPosts(b).endpoint {
      assert |da| == |db|;
      assert da == GetUserPosts(a).endpoint[|prefix|..|prefix| + |da|];
      assert db == GetUserPosts(b).endpoint[|prefix|..|prefix| + |db|];
      Decimal.IntToStringInjective(a, b);
    }
  }

  /** The four operations never request the same endpoint. */
  lemma EndpointKindsDistinct(a: int, b: int)
    ensures GetUser(a).endpoint != GetUserPosts(b).endpoint
    ensures GetUser(a).endpoint != GetUsers().endpoint && GetUser(a).endpoint != GetPosts().endpoint
    ensures GetUserPosts(a).endpoint != GetUsers().endpoint
    ensures GetUserPosts(a).endpoint != GetPosts().endpoint
    ensures GetUsers().endpoint != GetPosts().endpoint
  {
    var ua, pb := GetUser(a).endpoint, GetUserPosts(b).endpoint;
    var db := Decimal.IntToString(b);
    if |ua| == |pb| {
      assert pb[7 + |db|] == '/';
      assert ua[7 + |db|] == Decimal.IntToString(a)[|db|];
    }
  }
}
