// Exposed tool names: the app slug and the remote name, cleaned, cut to length
// and made new by a numeric tail. Each retry re-slices the previous candidate,
// so that the search ends at all needs an argument.
module ToolNames {
  const MAX_TOOL_NAME_LENGTH := 64
  const MAX_CANDIDATE_TOOLS := 200

  predicate Allowed(c: char) {
    'a' <= c <= 'z' || 'A' <= c <= 'Z' || '0' <= c <= '9' || c == '_' || c == '-'
  }

  predicate AllAllowed(s: string) {
    forall c | c in s :: Allowed(c)
  }

  function Sanitize(s: string): (r: string)
    ensures |r| == |s| && AllAllowed(r)
    ensures AllAllowed(s) ==> r == s
  {
    if s == "" then "" else [if Allowed(s[0]) then s[0] else '_'] + Sanitize(s[1..])
  }

  // String.prototype.slice(0, n).
  function Take(s: string, n: nat): string {
    if |s| <= n then s else s[..n]
  }

  function BaseName(app: string, remote: string): string {
    Take(Sanitize(app) + "__" + Sanitize(remote), MAX_TOOL_NAME_LENGTH)
  }

  lemma {:induction false} SanitizeAt(s: string, i: nat)
    requires i < |s|
    ensures Sanitize(s)[i] == if Allowed(s[i]) then s[i] else '_'
  {
    if i > 0 {
      SanitizeAt(s[1..], i - 1);
    }
  }

  // The app's name, two underscores and the tool's own name, character by character,
  // anything outside the allowed alphabet an underscore, cut at 64.
  lemma BaseNameAt(app: string, remote: string, i: nat)
    requires i < |BaseName(app, remote)|
    ensures |BaseName(app, remote)| == (if |app| + 2 + |remote| <= 64 then |app| + 2 + |remote| else 64)
    ensures
      var c := if i < |app| then app[i] else if i < |app| + 2 then '_' else remote[i - |app| - 2];
      BaseName(app, remote)[i] == if Allowed(c) then c else '_'
  {
    if i < |app| {
      SanitizeAt(app, i);
    } else if i >= |app| + 2 {
      SanitizeAt(remote, i - |app| - 2);
    }
  }

  // ---- decimal tails ------------------------------------------------------------

  function Digit(d: nat): char
    requires d < 10
  {
    ['0', '1', '2', '3', '4', '5', '6', '7', '8', '9'][d]
  }

  function DigitValue(c: char): nat {
    if '0' <= c <= '9' then (c as int) - ('0' as int) else 0
  }

  function Decimal(n: nat): (s: string)
    ensures s != "" && '_' !in s && AllAllowed(s)
  {
    if n < 10 then [Digit(n)] else Decimal(n / 10) + [Digit(n % 10)]
  }

  function Value(s: string): nat {
    if s == "" then 0 else 10 * Value(s[..|s| - 1]) + DigitValue(s[|s| - 1])
  }

  lemma {:induction false} DecimalRoundTrip(n: nat)
    ensures Value(Decimal(n)) == n
  {
    if n < 10 {
      assert Decimal(n)[..0] == "";
      assert Value("") == 0;
      assert DigitValue(Digit(n)) == n;
    } else {
      DecimalRoundTrip(n / 10);
      var s := Decimal(n);
      assert s[..|s| - 1] == Decimal(n / 10);
      assert DigitValue(Digit(n % 10)) == n % 10;
    }
  }

  lemma ShortDecimal(n: nat)
    requires n < 1000
    ensures |Decimal(n)| <= 3
  {
    if n >= 100 {
      assert n / 10 < 100;
      assert n / 10 / 10 < 10;
      assert |Decimal(n / 10 / 10)| == 1;
      assert |Decimal(n / 10)| == 2;
    } else if n >= 10 {
      assert |Decimal(n / 10)| == 1;
    }
  }

  // What follows the last underscore.
  function LastPart(s: string): string {
    if s == "" || s[|s| - 1] == '_' then "" else LastPart(s[..|s| - 1]) + [s[|s| - 1]]
  }

  lemma {:induction false} LastPartOf(head: string, tail: string)
    requires '_' !in tail
    ensures LastPart(head + "_" + tail) == tail
  {
    var s := head + "_" + tail;
    if tail != "" {
      var init := tail[..|tail| - 1];
      LastPartOf(head, init);
      assert s[..|s| - 1] == head + "_" + init;
    }
  }

  function TailNumber(s: string): nat {
    Value(LastPart(s))
  }

  function Suffixed(name: string, suffix: nat): string
    requires |Decimal(suffix)| < MAX_TOOL_NAME_LENGTH
  {
    Take(name, MAX_TOOL_NAME_LENGTH - |Decimal(suffix)| - 1) + "_" + Decimal(suffix)
  }

  // Whatever it was sliced from, a candidate tells which suffix made it.
  lemma SuffixedTail(name: string, suffix: nat)
    requires |Decimal(suffix)| < MAX_TOOL_NAME_LENGTH
    ensures TailNumber(Suffixed(name, suffix)) == suffix
  {
    LastPartOf(Take(name, MAX_TOOL_NAME_LENGTH - |Decimal(suffix)| - 1), Decimal(suffix));
    DecimalRoundTrip(suffix);
  }

  // As much of the name as fits stays in front of the tail.
  lemma SuffixedKeeps(name: string, suffix: nat)
    requires |Decimal(suffix)| < MAX_TOOL_NAME_LENGTH
    ensures
      var tail := "_" + Decimal(suffix);
      var kept := if |name| + |tail| <= 64 then |name| else 64 - |tail|;
      Suffixed(name, suffix) == name[..kept] + tail
  {
    var tail := "_" + Decimal(suffix);
    var kept := if |name| + |tail| <= 64 then |name| else 64 - |tail|;
    assert Take(name, MAX_TOOL_NAME_LENGTH - |Decimal(suffix)| - 1) == name[..kept];
    assert name[..kept] + "_" + Decimal(suffix) == name[..kept] + tail;
  }

  lemma SuffixedShape(head: string, tail: string, n: nat)
    requires AllAllowed(head) && AllAllowed(tail) && |tail| < n
    ensures AllAllowed(Take(head, n - |tail| - 1) + "_" + tail)
    ensures |Take(head, n - |tail| - 1) + "_" + tail| <= n
  {
  }

  lemma SuffixedFacts(name: string, suffix: nat)
    requires |Decimal(suffix)| < MAX_TOOL_NAME_LENGTH && AllAllowed(name)
    ensures TailNumber(Suffixed(name, suffix)) == suffix
    ensures |Suffixed(name, suffix)| <= MAX_TOOL_NAME_LENGTH && AllAllowed(Suffixed(name, suffix))
  {
    SuffixedTail(name, suffix);
    SuffixedShape(name, Decimal(suffix), MAX_TOOL_NAME_LENGTH);
  }

  lemma Subsets(small: set<string>, big: set<string>)
    requires small <= big
    ensures |small| <= |big|
  {
    if small != {} {
      var x :| x in small;
      Subsets(small - {x}, big - {x});
    }
  }

  // The names tried, in order: each is cut from the one before.
  function Candidate(app: string, remote: string, k: nat): string
    requires k < 900
  {
    if k == 0 then BaseName(app, remote)
    else ShortDecimal(k + 1); Suffixed(Candidate(app, remote, k - 1), k + 1)
  }

  lemma {:induction false} CandidateFacts(app: string, remote: string, k: nat)
    requires k < 900
    ensures 0 < |Candidate(app, remote, k)| <= MAX_TOOL_NAME_LENGTH && AllAllowed(Candidate(app, remote, k))
    ensures k > 0 ==> TailNumber(Candidate(app, remote, k)) == k + 1
  {
    if k > 0 {
      CandidateFacts(app, remote, k - 1);
      ShortDecimal(k + 1);
      SuffixedFacts(Candidate(app, remote, k - 1), k + 1);
    }
  }

  // name is the first candidate that is not taken.
  ghost predicate FirstFree(app: string, remote: string, taken: set<string>, name: string) {
    exists k: nat | k < 900 ::
      name == Candidate(app, remote, k) && name !in taken && TakenBefore(app, remote, taken, k)
  }

  ghost predicate TakenBefore(app: string, remote: string, taken: set<string>, k: nat)
    requires k < 900
  {
    forall j: nat | j < k :: Candidate(app, remote, j) in taken
  }

  ghost predicate Searching(app: string, remote: string, taken: set<string>, name: string, k: nat) {
    && k < 900
    && name == Candidate(app, remote, k) && TakenBefore(app, remote, taken, k)
    && 0 < |name| <= MAX_TOOL_NAME_LENGTH && AllAllowed(name)
    && (k > 0 ==> TailNumber(name) == k + 1)
  }

  lemma SearchOn(app: string, remote: string, taken: set<string>, name: string, k: nat)
    requires Searching(app, remote, taken, name, k) && name in taken && k < 899
    ensures |Decimal(k + 2)| < MAX_TOOL_NAME_LENGTH
    ensures Searching(app, remote, taken, Suffixed(name, k + 2), k + 1)
  {
    ShortDecimal(k + 2);
    CandidateFacts(app, remote, k + 1);
    assert Candidate(app, remote, k + 1) == Suffixed(name, k + 2);
  }

  // The taken names already tried after the first, told apart by their tails.
  ghost predicate Tried(tried: set<string>, taken: set<string>, suffix: nat) {
    && tried <= taken
    && |tried| == (if suffix <= 2 then 0 else suffix - 3)
    && forall t | t in tried :: TailNumber(t) < suffix - 1
  }

  lemma AddTried(tried: set<string>, taken: set<string>, suffix: nat, name: string)
    requires Tried(tried, taken, suffix) && suffix > 2 && name in taken && TailNumber(name) == suffix - 1
    ensures Tried(tried + {name}, taken, suffix + 1)
    ensures suffix - 2 <= |taken|
  {
    assert name !in tried;
    Subsets(tried + {name}, taken);
  }

  // The search ends because every candidate after the first is new: it is found
  // before the taken names run out.
  method ExposedName(app: string, remote: string, taken: set<string>) returns (name: string)
    requires |taken| < MAX_CANDIDATE_TOOLS
    ensures name !in taken && FirstFree(app, remote, taken, name)
    ensures 0 < |name| <= 64 && AllAllowed(name)
  {
    name := BaseName(app, remote);
    var suffix := 2;
    ghost var tried: set<string> := {};
    CandidateFacts(app, remote, 0);
    assert Searching(app, remote, taken, name, 0);
    while name in taken
      invariant 2 <= suffix <= |taken| + 3
      invariant Searching(app, remote, taken, name, suffix - 2)
      invariant Tried(tried, taken, suffix)
      decreases |taken| + 3 - suffix
    {
      if suffix > 2 {
        AddTried(tried, taken, suffix, name);
        tried := tried + {name};
      }
      ShortDecimal(suffix);
      SearchOn(app, remote, taken, name, suffix - 2);
      name := Suffixed(name, suffix);
      suffix := suffix + 1;
    }
  }

  // Why the tail matters: cutting alone makes different tools share a name.
  lemma CutNamesCollide(app: string, remote: string, other: string)
    requires |app| >= MAX_TOOL_NAME_LENGTH
    ensures BaseName(app, remote) == BaseName(app, other)
  {
    var a, b := Sanitize(app) + "__" + Sanitize(remote), Sanitize(app) + "__" + Sanitize(other);
    assert a[..MAX_TOOL_NAME_LENGTH] == Sanitize(app)[..MAX_TOOL_NAME_LENGTH] == b[..MAX_TOOL_NAME_LENGTH];
  }
}
