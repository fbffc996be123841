/** The `String` extension helpers: `truncate(length:trailing:)` and `isValidEmail`. */
module StringExtensions {
  import opened Wrappers
  import Decimal

  const DefaultTrailing := "..."

  /** `truncate(length:trailing:)`: a string longer than `length` is cut to its first `length`
      characters and `trailing` is appended; a string that fits is returned as it is. Swift's
      `prefix` traps on a negative length, hence the precondition. */
  function Truncate(s: string, length: int, trailing: string := DefaultTrailing): (r: string)
    requires length >= 0
    ensures |s| <= length ==> r == s
    ensures |s| > length ==> |r| == length + |trailing| && r[length..] == trailing
    ensures var kept := if |s| < length then |s| else length;
      kept <= |r| && r[..kept] == s[..kept]
  {
    if |s| > length then s[..length] + trailing else s
  }

  /** Truncating twice with the same arguments is truncating once. */
  lemma TruncateIdempotent(s: string, length: nat, trailing: string)
    ensures Truncate(Truncate(s, length, trailing), length, trailing) == Truncate(s, length, trailing)
  {
    var once := Truncate(s, length, trailing);
    if |s| > length {
      assert once[..length] == s[..length];
    }
  }

  // The character classes of the pattern `[A-Z0-9a-z._%+-]+@[A-Za-z0-9.-]+\.[A-Za-z]{2,64}`.

  predicate IsAsciiLetter(c: char) { 'A' <= c <= 'Z' || 'a' <= c <= 'z' }

  predicate InLocalClass(c: char) {
    IsAsciiLetter(c) || Decimal.IsDigit(c) || c == '.' || c == '_' || c == '%' || c == '+' || c == '-'
  }

  predicate InHostClass(c: char) { IsAsciiLetter(c) || Decimal.IsDigit(c) || c == '.' || c == '-' }

  predicate All(s: string, p: char -> bool) { forall i | 0 <= i < |s| :: p(s[i]) }

  predicate IsLocalRun(s: string) { |s| > 0 && All(s, InLocalClass) }

  predicate IsHostRun(s: string) { |s| > 0 && All(s, InHostClass) }

  predicate IsTopLevel(s: string) { 2 <= |s| <= 64 && All(s, IsAsciiLetter) }

  /** The regular expression, matched against the whole string: some '@' and some later '.' cut
      the string into a local run, a host run and a top-level run. */
  ghost predicate MatchesEmailPattern(s: string) {
    exists at, dot | 0 <= at < dot < |s| ::
      s[at] == '@' && s[dot] == '.'
      && IsLocalRun(s[..at]) && IsHostRun(s[at + 1..dot]) && IsTopLevel(s[dot + 1..])
  }

  /** The first position of `c` in `s`. */
  function IndexOf(s: string, c: char): (r: Option<nat>)
    ensures r.Some? ==> r.value < |s| && s[r.value] == c
    ensures r.Some? ==> forall k | 0 <= k < r.value :: s[k] != c
    ensures r.None? ==> forall k | 0 <= k < |s| :: s[k] != c
    decreases |s|
  {
    if s == [] then None
    else if s[0] == c then Some(0)
    else match IndexOf(s[1..], c)
      case None => None
      case Some(i) => Some(i + 1)
  }

  /** The last position of `c` in `s`. */
  function LastIndexOf(s: string, c: char): (r: Option<nat>)
    ensures r.Some? ==> r.value < |s| && s[r.value] == c
    ensures r.Some? ==> forall k | r.value < k < |s| :: s[k] != c
    ensures r.None? ==> forall k | 0 <= k < |s| :: s[k] != c
    decreases |s|
  {
    if s == [] then None
    else if s[|s| - 1] == c then Some(|s| - 1)
    else LastIndexOf(s[..|s| - 1], c)
  }

  /** What follows the '@': a host run, a '.', and a top-level run after the last '.'. */
  predicate IsDomain(rest: string) {
    match LastIndexOf(rest, '.')
    case None => false
    case Some(dot) => IsHostRun(rest[..dot]) && IsTopLevel(rest[dot + 1..])
  }

  /** `isValidEmail`, as a recogniser: the local run ends at the first '@', the domain follows. */
  predicate IsValidEmail(s: string) {
    match IndexOf(s, '@')
    case None => false
    case Some(at) => IsLocalRun(s[..at]) && IsDomain(s[at + 1..])
  }

  /** The recogniser accepts exactly the strings the pattern matches. */
  lemma IsValidEmailMatchesPattern(s: string)
    ensures IsValidEmail(s) <==> MatchesEmailPattern(s)
  {
    if IsValidEmail(s) {
      AcceptedMatches(s);
    }
    if MatchesEmailPattern(s) {
      var at, dot :| 0 <= at < dot < |s| && s[at] == '@' && s[dot] == '.'
        && IsLocalRun(s[..at]) && IsHostRun(s[at + 1..dot]) && IsTopLevel(s[dot + 1..]);
      MatchIsAccepted(s, at, dot);
    }
  }

  lemma AcceptedMatches(s: string)
    requires IsValidEmail(s)
    ensures MatchesEmailPattern(s)
  {
    var at := IndexOf(s, '@').value;
    var rest := s[at + 1..];
    var d := LastIndexOf(rest, '.').value;
    var dot := at + 1 + d;
    assert s[at + 1..dot] == rest[..d];
    assert s[dot + 1..] == rest[d + 1..];
    assert s[dot] == rest[d];
  }

  lemma MatchIsAccepted(s: string, at: nat, dot: nat)
    requires at < dot < |s| && s[at] == '@' && s[dot] == '.'
    requires IsLocalRun(s[..at]) && IsHostRun(s[at + 1..dot]) && IsTopLevel(s[dot + 1..])
    ensures IsValidEmail(s)
  {
    FirstAt(s, at);
    var rest := s[at + 1..];
    var d := dot - at - 1;
    assert rest[d] == s[dot];
    assert rest[d + 1..] == s[dot + 1..];
    LastDot(rest, d);
    assert rest[..d] == s[at + 1..dot];
  }

  lemma FirstAt(s: string, at: nat)
    requires at < |s| && s[at] == '@' && All(s[..at], InLocalClass)
    ensures IndexOf(s, '@') == Some(at)
  {
    forall k | 0 <= k < at ensures s[k] != '@' {
      assert s[..at][k] == s[k];
    }
  }

  lemma LastDot(rest: string, d: nat)
    requires d < |rest| && rest[d] == '.' && All(rest[d + 1..], IsAsciiLetter)
    ensures LastIndexOf(rest, '.') == Some(d)
  {
    forall k | d < k < |rest| ensures rest[k] != '.' {
      assert rest[d + 1..][k - d - 1] == rest[k];
    }
  }

  function Occurrences(s: string, c: char): set<nat> {
    set k: nat | k < |s| && s[k] == c
  }

  /** An accepted address holds exactly one '@', and what follows its last '.' is two to
      sixty-four ASCII letters. */
  lemma ValidEmailShape(s: string)
    requires IsValidEmail(s)
    ensures |Occurrences(s, '@')| == 1
    ensures LastIndexOf(s, '.').Some?
    ensures var dot := LastIndexOf(s, '.').value; IsTopLevel(s[dot + 1..])
  {
    var at := IndexOf(s, '@').value;
    var rest := s[at + 1..];
    NoAtInDomain(rest);
    forall k | at < k < |s| ensures s[k] != '@' {
      assert s[k] == rest[k - at - 1];
    }
    assert Occurrences(s, '@') == {at};
    var d := LastIndexOf(rest, '.').value;
    assert s[at + 1 + d] == rest[d];
    assert s[at + 1 + d + 1..] == rest[d + 1..];
    LastDot(s, at + 1 + d);
  }

  lemma NoAtInDomain(rest: string)
    requires IsDomain(rest)
    ensures forall k | 0 <= k < |rest| :: rest[k] != '@'
  {
    var d := LastIndexOf(rest, '.').value;
    forall k | 0 <= k < |rest| ensures rest[k] != '@' {
      if k < d {
        assert rest[..d][k] == rest[k];
      } else if k > d {
        assert rest[d + 1..][k - d - 1] == rest[k];
      }
    }
  }
}
