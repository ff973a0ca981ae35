/** Datatypes and string operations shared by every module of the model.
    Strings are `seq<char>`; the operations below follow the semantics of the
    Python `str` methods the agent relies on (`find`, `split(sep)[0]`,
    `replace`, `startswith`, the `in` substring test). */
module Common {

  datatype Option<T> = None | Some(value: T)

  /** The result of an operation that may raise in the source. */
  datatype Result<T, E> = Ok(value: T) | Err(error: E)

  /** The exceptions the modelled code can raise and not catch. */
  datatype PyError =
    | KeyError(key: string)
    | IndexError
    | ValueError
    | StopIteration
    | SystemExit(code: int)
    | OSError
    | UnboundLocalError
    | AttributeError

  /** A whitespace character in the sense of `str.isspace()`, which is
      also what `\s` and `str.strip()` match on text: the ASCII controls
      tab to carriage return and file to unit separator, and the Unicode
      space and line or paragraph separators. */
  predicate IsSpace(c: char) {
    c == ' ' || 9 <= c as int <= 13 || 0x1c <= c as int <= 0x1f || c as int == 0x85 || c as int == 0xa0 ||
    c as int == 0x1680 || 0x2000 <= c as int <= 0x200a || c as int == 0x2028 || c as int == 0x2029 ||
    c as int == 0x202f || c as int == 0x205f || c as int == 0x3000
  }

  /** The length of the whitespace run a line starts with. */
  function LeadingSpace(s: string): (n: nat)
    ensures n <= |s|
    ensures forall k | 0 <= k < n :: IsSpace(s[k])
    ensures n < |s| ==> !IsSpace(s[n])
  {
    if |s| == 0 || !IsSpace(s[0]) then 0
    else
      var n := 1 + LeadingSpace(s[1..]);
      assert forall k | 1 <= k < n :: s[k] == s[1..][k - 1];
      n
  }

  predicate StartsWith(s: string, prefix: string) {
    |prefix| <= |s| && s[..|prefix|] == prefix
  }

  predicate EndsWith(s: string, suffix: string) {
    |suffix| <= |s| && s[|s| - |suffix|..] == suffix
  }

  /** `pat` occurs in `s` starting at index `i`. */
  predicate OccursAt(s: string, pat: string, i: nat) {
    i + |pat| <= |s| && s[i..i + |pat|] == pat
  }

  /** A piece between two others occurs right after the first. */
  lemma {:induction false} OccursBetween(p: string, x: string, q: string)
    ensures OccursAt(p + x + q, x, |p|)
  {
    assert (p + x + q)[|p|..|p| + |x|] == x;
  }

  /** Appending keeps a prefix. */
  lemma {:induction false} StartsWithAppend(s: string, t: string, prefix: string)
    requires StartsWith(s, prefix)
    ensures StartsWith(s + t, prefix)
  {
    assert (s + t)[..|prefix|] == s[..|prefix|];
  }

  /** Python's `pat in s`. */
  predicate Contains(s: string, pat: string) {
    exists i: nat | i <= |s| :: OccursAt(s, pat, i)
  }

  /** The first occurrence of `pat` in `s` at or after `from`. */
  function FindFrom(s: string, pat: string, from: nat): (r: Option<nat>)
    decreases |s| - from
    ensures r.Some? ==> from <= r.value && OccursAt(s, pat, r.value)
    ensures r.Some? ==> forall j: nat :: from <= j < r.value ==> !OccursAt(s, pat, j)
    ensures r.None? ==> forall j: nat :: from <= j ==> !OccursAt(s, pat, j)
  {
    if from + |pat| > |s| then None
    else if OccursAt(s, pat, from) then Some(from)
    else FindFrom(s, pat, from + 1)
  }

  function IndexOf(s: string, pat: string): (r: Option<nat>)
    ensures r.Some? <==> Contains(s, pat)
    ensures r.Some? ==> OccursAt(s, pat, r.value) && forall j: nat :: j < r.value ==> !OccursAt(s, pat, j)
  {
    FindFrom(s, pat, 0)
  }

  /** Python's `s.find(pat, start)` for `0 <= start`: the index, or -1. */
  function PyFind(s: string, pat: string, start: nat): (r: int)
    ensures r == -1 || (start <= r && OccursAt(s, pat, r as nat))
  {
    match FindFrom(s, pat, start)
    case None => -1
    case Some(i) => i
  }

  /** Python's `s.split(sep)[0]` for a non-empty `sep`: the text before the
      first separator, or all of `s`. */
  function Before(s: string, sep: string): (r: string)
    ensures |r| <= |s| && StartsWith(s, r)
    ensures !Contains(s, sep) ==> r == s
  {
    match IndexOf(s, sep)
    case None => s
    case Some(i) => s[..i]
  }

  /** The text after the first occurrence of `sep`, when there is one. */
  function After(s: string, sep: string): (r: Option<string>)
    ensures r.Some? <==> Contains(s, sep)
    ensures r.Some? ==> |r.value| <= |s| && EndsWith(s, r.value)
  {
    match IndexOf(s, sep)
    case None => None
    case Some(i) => Some(s[i + |sep|..])
  }

  /** Python's `sep.join(parts)`. */
  function Join(parts: seq<string>, sep: string): string {
    if |parts| == 0 then ""
    else if |parts| == 1 then parts[0]
    else parts[0] + sep + Join(parts[1..], sep)
  }

  /** Appending one more part to a join. */
  lemma {:induction false} JoinSnoc(parts: seq<string>, x: string, sep: string)
    requires |parts| > 0
    ensures Join(parts + [x], sep) == Join(parts, sep) + sep + x
  {
    if |parts| == 1 {
      assert parts + [x] == [parts[0], x];
      assert Join([x], sep) == x;
    } else {
      assert (parts + [x])[1..] == parts[1..] + [x];
      JoinSnoc(parts[1..], x, sep);
    }
  }

  /** Python's `s.replace(pat, rep)` for a non-empty `pat`: every
      non-overlapping occurrence, scanned left to right, is replaced. */
  function ReplaceAll(s: string, pat: string, rep: string): string
    requires |pat| > 0
  {
    if |s| == 0 then ""
    else if StartsWith(s, pat) then rep + ReplaceAll(s[|pat|..], pat, rep)
    else [s[0]] + ReplaceAll(s[1..], pat, rep)
  }

  lemma {:induction false} ReplaceAllAbsent(s: string, pat: string, rep: string)
    requires |pat| > 0 && !Contains(s, pat)
    ensures ReplaceAll(s, pat, rep) == s
  {
    if |s| > 0 {
      assert !OccursAt(s, pat, 0);
      forall i: nat ensures !OccursAt(s[1..], pat, i) {
        if OccursAt(s[1..], pat, i) {
          assert s[1..][i..i + |pat|] == s[i + 1..i + 1 + |pat|];
          assert OccursAt(s, pat, i + 1);
        }
      }
      ReplaceAllAbsent(s[1..], pat, rep);
    }
  }

  /** When the pattern occurs, the replacement occurs in the result. */
  lemma {:induction false} ReplaceAllIntroduces(s: string, pat: string, rep: string)
    requires |pat| > 0 && Contains(s, pat)
    ensures Contains(ReplaceAll(s, pat, rep), rep)
  {
    var i: nat :| i <= |s| && OccursAt(s, pat, i);
    if StartsWith(s, pat) {
      assert OccursAt(ReplaceAll(s, pat, rep), rep, 0);
    } else {
      assert i > 0;
      assert s[1..][i - 1..i - 1 + |pat|] == s[i..i + |pat|];
      assert OccursAt(s[1..], pat, i - 1);
      ReplaceAllIntroduces(s[1..], pat, rep);
      var t := ReplaceAll(s[1..], pat, rep);
      var j: nat :| j <= |t| && OccursAt(t, rep, j);
      assert ([s[0]] + t)[j + 1..j + 1 + |rep|] == t[j..j + |rep|];
      assert OccursAt([s[0]] + t, rep, j + 1);
    }
  }

  /** The index of the last occurrence of `c` in `s`. */
  function LastIndexOf(s: string, c: char): (r: Option<nat>)
    ensures r.Some? ==> r.value < |s| && s[r.value] == c && forall j | r.value < j < |s| :: s[j] != c
    ensures r.None? ==> forall j | 0 <= j < |s| :: s[j] != c
  {
    if |s| == 0 then None
    else if s[|s| - 1] == c then Some(|s| - 1)
    else LastIndexOf(s[..|s| - 1], c)
  }

  /** The regular expression `open.+close` searched in a line: `open`
      occurs, and `close` occurs later with at least one character in
      between. */
  predicate Bracketed(s: string, open: string, close: string) {
    exists i: nat, j: nat | i <= |s| && j <= |s| :: OccursAt(s, open, i) && i + |open| + 1 <= j && OccursAt(s, close, j)
  }

  /** The same test as a search: the first `open`, then the first `close`
      one character or more after it. */
  function BracketedSearch(s: string, open: string, close: string): (r: bool)
    ensures r <==> Bracketed(s, open, close)
  {
    match IndexOf(s, open)
    case None => false
    case Some(i) =>
      var r := FindFrom(s, close, i + |open| + 1).Some?;
      assert r ==> OccursAt(s, close, FindFrom(s, close, i + |open| + 1).value);
      assert Bracketed(s, open, close) ==> r by {
        if Bracketed(s, open, close) {
          var i': nat, j: nat :| i' <= |s| && j <= |s| && OccursAt(s, open, i') && i' + |open| + 1 <= j && OccursAt(s, close, j);
          assert i <= i';
        }
      }
      r
  }

  /** The group of `open(.*)close.*` (`minGap` 0) or `open(.+)close.*`
      (`minGap` 1) when `open` starts at `start`: greedy, so it runs to the
      last `close` character of the line. */
  function GreedyGroup(s: string, start: nat, minGap: nat, close: char): (r: Option<string>)
    requires start <= |s|
    ensures r.Some? ==> exists j | start + minGap <= j < |s| :: s[j] == close && r.value == s[start..j] &&
                          forall k | j < k < |s| :: s[k] != close
    ensures r.None? ==> forall k | start + minGap <= k < |s| :: s[k] != close
  {
    match LastIndexOf(s, close)
    case None => None
    case Some(j) => if start + minGap <= j then Some(s[start..j]) else None
  }

  /** Python's `s[:i]` for any integer `i`. */
  function SliceTo(s: string, i: int): (r: string)
    ensures |r| <= |s| && StartsWith(s, r)
    ensures 0 <= i <= |s| ==> r == s[..i]
  {
    if i >= |s| then s
    else if i >= 0 then s[..i]
    else if |s| + i >= 0 then s[..|s| + i]
    else ""
  }

  /** Python's `s[i:]` for any integer `i`. */
  function SliceFrom(s: string, i: int): (r: string)
    ensures |r| <= |s| && EndsWith(s, r)
    ensures 0 <= i <= |s| ==> r == s[i..]
  {
    if i >= |s| then ""
    else if i >= 0 then s[i..]
    else if |s| + i >= 0 then s[|s| + i..]
    else s
  }

  function IntToString(n: int): string
    decreases if n < 0 then 1 - n else n
  {
    if n < 0 then "-" + IntToString(-n)
    else if n < 10 then [('0' as int + n) as char]
    else IntToString(n / 10) + IntToString(n % 10)
  }

  /** Concatenation regrouped, for steps where the verifier does not
      regroup on its own. */
  /** The three parts of a sequence with `d[p..q]` replaced by `x`. */
  lemma {:induction false} SpliceParts<T>(d: seq<T>, p: nat, q: nat, x: seq<T>)
    requires p <= q <= |d|
    ensures var t := d[..p] + x + d[q..];
            |t| == p + |x| + (|d| - q) && t[..p] == d[..p] && t[p + |x|..] == d[q..] &&
            forall k | p <= k < p + |x| :: t[k] == x[k - p]
  {
  }

  /** Two sequences with a common prefix agree on every slice inside it. */
  lemma {:induction false} SliceOfPrefix<T>(a: seq<T>, b: seq<T>, n: nat, lo: nat, hi: nat)
    requires lo <= hi <= n <= |a| && n <= |b| && a[..n] == b[..n]
    ensures a[lo..hi] == b[lo..hi]
  {
    forall k | 0 <= k < hi - lo
      ensures a[lo..hi][k] == b[lo..hi][k]
    {
      assert a[lo + k] == a[..n][lo + k];
      assert b[lo + k] == b[..n][lo + k];
    }
  }

  /** Moving the head of the second part to the end of the first keeps
      the concatenation. */
  lemma {:induction false} MoveHead<T>(whole: seq<T>, done: seq<T>, rest: seq<T>)
    requires whole == done + rest && |rest| > 0
    ensures whole == (done + [rest[0]]) + rest[1..]
  {
    assert rest == [rest[0]] + rest[1..];
  }

  /** Moving the head of one list to the end of another keeps the
      elements of both together. */
  lemma {:induction false} MoveHeadMultiset<T>(queue: seq<T>, done: seq<T>)
    requires |queue| > 0
    ensures multiset(queue[1..]) + multiset(done + [queue[0]]) == multiset(queue) + multiset(done)
    ensures forall x | x in done + [queue[0]] :: x in done || x == queue[0]
  {
    assert queue == [queue[0]] + queue[1..];
  }

  /** A prefix one longer is the prefix plus the next element. */
  lemma {:induction false} TakeSnoc<T>(s: seq<T>, j: nat)
    requires j < |s|
    ensures s[..j + 1] == s[..j] + [s[j]]
  {
  }

  /** Replacing element `i` leaves the prefix before it and extends it by
      the new element. */
  lemma {:induction false} UpdateTake<T>(s: seq<T>, i: nat, x: T)
    requires i < |s|
    ensures s[i := x][..i] == s[..i] && s[i := x][..i + 1] == s[..i] + [x]
  {
    assert s[i := x][..i + 1] == s[i := x][..i] + [x];
  }

  lemma {:induction false} AppendAssociative<T>(a: seq<T>, b: seq<T>, c: seq<T>)
    ensures a + b + c == a + (b + c)
  {
  }
}
