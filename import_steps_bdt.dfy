/** The Behave step import: every line of the step catalogue Behave writes
    (`behave -d -f steps.doc`) that reads `@lib('step text')` asks the
    service for a keyword named after the step text. Each `"{p}"`
    placeholder of the text becomes `"${p}"` and `p` a parameter of the
    keyword; a newly created keyword is then marked implemented in the
    library `lib` (upper case). Running Behave, reading the catalogue file,
    the command line and the progress bar are not part of this model: the
    catalogue's lines and the optional prefix are inputs. */
module ImportStepsBdt {
  import opened Common
  import opened Tbcs
  import opened ComparisonUtils
  import opened TbcsUtils

  // ---------------------------------------------------------------------
  // Stripping a line

  /** The length of the whitespace run a line ends with. */
  function TrailingSpace(s: string): (n: nat)
    ensures n <= |s|
    ensures forall k | |s| - n <= k < |s| :: IsSpace(s[k])
    ensures n < |s| ==> !IsSpace(s[|s| - 1 - n])
  {
    if |s| == 0 || !IsSpace(s[|s| - 1]) then 0
    else
      var n := 1 + TrailingSpace(s[..|s| - 1]);
      assert forall k | |s| - n <= k < |s| - 1 :: s[k] == s[..|s| - 1][k];
      n
  }

  /** `str.strip()`: the line without its leading and trailing whitespace. */
  function Strip(s: string): (r: string)
    ensures |r| <= |s|
    ensures |r| > 0 ==> !IsSpace(r[0]) && !IsSpace(r[|r| - 1])
  {
    var rest := s[LeadingSpace(s)..];
    rest[..|rest| - TrailingSpace(rest)]
  }

  predicate AllSpace(s: string) {
    forall k | 0 <= k < |s| :: IsSpace(s[k])
  }

  /** Stripping removes exactly the whitespace around a text that neither
      starts nor ends with whitespace. */
  lemma {:induction false} StripPadded(left: string, t: string, right: string)
    requires AllSpace(left) && AllSpace(right)
    requires |t| > 0 ==> !IsSpace(t[0]) && !IsSpace(t[|t| - 1])
    ensures Strip(left + t + right) == t
  {
    var s := left + t + right;
    var a := LeadingSpace(s);
    if |t| == 0 {
      assert forall k | 0 <= k < |s| :: IsSpace(s[k]) by {
        assert forall k | 0 <= k < |left| :: s[k] == left[k];
        assert forall k | |left| <= k < |s| :: s[k] == right[k - |left|];
      }
      assert a == |s|;
    } else {
      assert s[|left|] == t[0];
      assert forall k | 0 <= k < |left| :: s[k] == left[k];
      assert a == |left|;
      var rest := s[a..];
      assert rest == t + right;
      assert rest[|t| - 1] == t[|t| - 1];
      assert forall k | |t| <= k < |rest| :: rest[k] == right[k - |t|];
      assert TrailingSpace(rest) == |right|;
      assert rest[..|t|] == t;
    }
  }

  // ---------------------------------------------------------------------
  // The step line `@(.*)\('(.*?)'\)`

  /** A `('` at index `p` (after the leading `@`) that some `')` follows:
      a place where the name can start. */
  predicate Opens(s: string, p: nat) {
    1 <= p && OccursAt(s, "('", p) && FindFrom(s, "')", p + 2).Some?
  }

  /** The last `p` below `n` with `ok(p)`. */
  function LastBelow(ok: nat -> bool, n: nat): Option<nat> {
    if n == 0 then None
    else if ok(n - 1) then Some(n - 1)
    else LastBelow(ok, n - 1)
  }

  lemma {:induction false} LastBelowIsLast(ok: nat -> bool, n: nat)
    ensures LastBelow(ok, n).Some? ==>
              LastBelow(ok, n).value < n && ok(LastBelow(ok, n).value) &&
              forall p: nat | LastBelow(ok, n).value < p < n :: !ok(p)
    ensures LastBelow(ok, n).None? ==> forall p: nat | p < n :: !ok(p)
  {
    if n > 0 && !ok(n - 1) {
      LastBelowIsLast(ok, n - 1);
    }
  }

  lemma {:induction false} LastBelowAt(ok: nat -> bool, n: nat, p: nat)
    requires p < n && ok(p) && forall k: nat | p < k < n :: !ok(k)
    ensures LastBelow(ok, n) == Some(p)
  {
    if n - 1 != p {
      LastBelowAt(ok, n - 1, p);
    }
  }

  /** The last place below `n` where the name can start; the first group
      is greedy, so the search takes the last one. */
  function LastOpen(s: string, n: nat): Option<nat> {
    LastBelow(OpensIn(s), n)
  }

  /** The places of `s` that open, as a test. */
  function OpensIn(s: string): nat -> bool {
    (p: nat) => Opens(s, p)
  }

  /** `LastOpen` finds the last place below `n` that opens, or reports
      that none does. */
  lemma {:induction false} LastOpenIsLast(s: string, n: nat)
    ensures LastOpen(s, n).Some? ==>
              LastOpen(s, n).value < n && Opens(s, LastOpen(s, n).value) &&
              forall p: nat | LastOpen(s, n).value < p < n :: !Opens(s, p)
    ensures LastOpen(s, n).None? ==> forall p: nat | p < n :: !Opens(s, p)
  {
    LastBelowIsLast(OpensIn(s), n);
    forall p: nat ensures OpensIn(s)(p) == Opens(s, p) {
    }
  }

  /** The two groups `(lib, name)` of the step pattern searched in a line
      that starts with `@`: the library runs greedily up to the last `('`
      that a `')` still follows, the name lazily up to the first `')`
      after it. A match can only start at the first `@`, since every
      match starting later is one starting there too. */
  function StepMatch(s: string): (r: Option<(string, string)>)
    requires |s| > 0 && s[0] == '@'
    ensures r.Some? ==> exists p: nat, q: nat | 1 <= p && p + 2 <= q && q + 2 <= |s| ::
                          OccursAt(s, "('", p) && OccursAt(s, "')", q) && r.value == (s[1..p], s[p + 2..q])
    ensures r.None? ==> forall p: nat, q: nat | 1 <= p && p + 2 <= q :: !(OccursAt(s, "('", p) && OccursAt(s, "')", q))
  {
    LastOpenIsLast(s, |s|);
    match LastOpen(s, |s|)
    case None =>
      forall p: nat, q: nat | 1 <= p && p + 2 <= q && OccursAt(s, "('", p)
        ensures !OccursAt(s, "')", q)
      {
        assert p < |s|;
        assert !Opens(s, p);
      }
      None
    case Some(p) =>
      var q := FindFrom(s, "')", p + 2).value;
      Some((s[1..p], s[p + 2..q]))
  }

  predicate NoQuote(t: string, quote: char) {
    forall k | 0 <= k < |t| :: t[k] != quote
  }

  /** A line built as `@lib('name')` yields `lib` and `name` whatever the
      library, as long as the name holds no single quote. */
  lemma {:induction false} StepMatchLine(lib: string, name: string)
    requires NoQuote(name, '\'')
    ensures var s := "@" + lib + "('" + name + "')"; StepMatch(s) == Some((lib, name))
  {
    var s := "@" + lib + "('" + name + "')";
    var p0 := 1 + |lib|;
    var q0 := p0 + 2 + |name|;
    assert |s| == q0 + 2;
    assert forall k | p0 + 2 <= k < q0 :: s[k] == name[k - p0 - 2];
    assert s[q0] == '\'' && s[q0 + 1] == ')';
    assert s[p0] == '(' && s[p0 + 1] == '\'';
    assert OccursAt(s, "')", q0) by { assert s[q0..q0 + 2] == "')"; }
    assert OccursAt(s, "('", p0) by { assert s[p0..p0 + 2] == "('"; }
    assert Opens(s, p0);
    forall p: nat | p0 < p < |s| ensures !Opens(s, p) {
      if OccursAt(s, "('", p) {
        assert s[p + 1] == s[p..p + 2][1] == '\'';
        assert p + 1 == q0;
      }
    }
    assert LastOpen(s, |s|) == Some(p0) by {
      LastOpenAt(s, |s|, p0);
    }
    var q := FindFrom(s, "')", p0 + 2).value;
    forall j: nat | p0 + 2 <= j < q0 ensures !OccursAt(s, "')", j) {
      assert s[j] != '\'';
      assert j + 2 <= |s| ==> s[j..j + 2][0] == s[j];
    }
    assert q == q0;
    assert s[1..p0] == lib;
    assert s[p0 + 2..q0] == name;
  }

  /** `LastOpen` finds `p` when nothing between `p` and `n` opens. */
  lemma {:induction false} LastOpenAt(s: string, n: nat, p: nat)
    requires p < n && Opens(s, p) && forall k: nat | p < k < n :: !Opens(s, k)
    ensures LastOpen(s, n) == Some(p)
  {
    LastBelowAt(OpensIn(s), n, p);
  }

  // ---------------------------------------------------------------------
  // Placeholders `"\{(.*?)\}"`

  const PlaceholderOpen := "\"{"
  const PlaceholderClose := "}\""

  function Placeholder(p: string): string {
    PlaceholderOpen + p + PlaceholderClose
  }

  /** What a placeholder is rewritten to: a Robot Framework variable. */
  function Replacement(p: string): string {
    "\"${" + p + PlaceholderClose
  }

  /** The first placeholder of a name as the start `i` of its `"{` and the
      start `j` of the `}"` that closes it: the first `"{`, and the first
      `}"` after it (the group is lazy). */
  function ParMatch(name: string): (r: Option<(nat, nat)>)
    ensures r.Some? ==>
              var (i, j) := r.value;
              i + 2 <= j && OccursAt(name, PlaceholderOpen, i) && OccursAt(name, PlaceholderClose, j) &&
              (forall k: nat | k < i :: !OccursAt(name, PlaceholderOpen, k)) &&
              (forall k: nat | i + 2 <= k < j :: !OccursAt(name, PlaceholderClose, k))
    ensures r.None? ==>
              forall i: nat, j: nat | i + 2 <= j :: !(OccursAt(name, PlaceholderOpen, i) && OccursAt(name, PlaceholderClose, j))
  {
    match IndexOf(name, PlaceholderOpen)
    case None => None
    case Some(i) =>
      match FindFrom(name, PlaceholderClose, i + 2)
      case None => None
      case Some(j) => Some((i, j))
  }

  /** The number of `"{` pairs in a text: what the rewrite loop uses up. */
  function PairCount(s: string): nat {
    if |s| < 2 then 0 else (if s[0] == '"' && s[1] == '{' then 1 else 0) + PairCount(s[1..])
  }

  /** The pair a concatenation creates where its two parts meet. */
  function Seam(a: string, b: string): nat {
    if |a| > 0 && |b| > 0 && a[|a| - 1] == '"' && b[0] == '{' then 1 else 0
  }

  lemma {:induction false} PairCountConcat(a: string, b: string)
    ensures PairCount(a + b) == PairCount(a) + PairCount(b) + Seam(a, b)
    decreases |a|
  {
    if |a| == 0 {
      assert a + b == b;
    } else if |a| == 1 {
      if |b| > 0 {
        assert (a + b)[1..] == b;
      }
    } else {
      assert (a + b)[1..] == a[1..] + b;
      PairCountConcat(a[1..], b);
    }
  }

  /** Replacing never changes the first character when the pattern and
      its replacement start alike. */
  lemma {:induction false} ReplaceAllHead(s: string, g: string, r: string)
    requires |g| > 0 && |r| > 0 && g[0] == r[0]
    ensures |ReplaceAll(s, g, r)| > 0 <==> |s| > 0
    ensures |s| > 0 ==> ReplaceAll(s, g, r)[0] == s[0]
  {
    if |s| > 0 && StartsWith(s, g) {
      assert s[0] == s[..|g|][0];
    }
  }

  /** A replaced occurrence loses pairs: the replacement has fewer, and
      the seams on both sides stay as they were. */
  lemma {:induction false} ReplacedHeadPairs(g: string, r: string, rest: string, out: string)
    requires |g| > 0 && |r| > 0 && g[0] == r[0] && g[|g| - 1] == r[|r| - 1]
    requires PairCount(r) < PairCount(g) && PairCount(out) <= PairCount(rest)
    requires (|out| > 0 <==> |rest| > 0) && (|rest| > 0 ==> out[0] == rest[0])
    ensures PairCount(r + out) < PairCount(g + rest)
  {
    assert Seam(r, out) == Seam(g, rest);
    PairCountConcat(g, rest);
    PairCountConcat(r, out);
  }

  /** A kept first character keeps the seam after it. */
  lemma {:induction false} KeptHeadPairs(c: char, rest: string, out: string)
    requires PairCount(out) <= PairCount(rest)
    requires (|out| > 0 <==> |rest| > 0) && (|rest| > 0 ==> out[0] == rest[0])
    ensures PairCount([c] + out) <= PairCount([c] + rest)
    ensures PairCount(out) < PairCount(rest) ==> PairCount([c] + out) < PairCount([c] + rest)
  {
    PairCountConcat([c], rest);
    PairCountConcat([c], out);
  }

  /** Replacing a pattern by a text with fewer `"{` pairs and the same
      first and last character never adds a pair, and removes one when
      the pattern occurs. */
  lemma {:induction false} ReplaceAllPairs(s: string, g: string, r: string)
    requires |g| > 0 && |r| > 0 && g[0] == r[0] && g[|g| - 1] == r[|r| - 1]
    requires PairCount(r) < PairCount(g)
    ensures PairCount(ReplaceAll(s, g, r)) <= PairCount(s)
    ensures Contains(s, g) ==> PairCount(ReplaceAll(s, g, r)) < PairCount(s)
    decreases |s|
  {
    if |s| == 0 {
    } else if StartsWith(s, g) {
      var rest := s[|g|..];
      assert s == g + rest;
      ReplaceAllPairs(rest, g, r);
      ReplaceAllHead(rest, g, r);
      ReplacedHeadPairs(g, r, rest, ReplaceAll(rest, g, r));
    } else {
      var rest := s[1..];
      assert s == [s[0]] + rest;
      ReplaceAllPairs(rest, g, r);
      ReplaceAllHead(rest, g, r);
      KeptHeadPairs(s[0], rest, ReplaceAll(rest, g, r));
      if Contains(s, g) {
        var i: nat :| i <= |s| && OccursAt(s, g, i);
        assert i != 0;
        assert rest[i - 1..i - 1 + |g|] == s[i..i + |g|];
        assert OccursAt(rest, g, i - 1);
      }
    }
  }

  /** One turn of the rewrite loop removes at least one `"{` pair: the
      matched text is a placeholder, and its replacement keeps only the
      pairs inside the group. */
  lemma {:induction false} PlaceholderStep(name: string, i: nat, j: nat)
    requires ParMatch(name) == Some((i, j))
    ensures name[i..j + 2] == Placeholder(name[i + 2..j])
    ensures PairCount(ReplaceAll(name, name[i..j + 2], Replacement(name[i + 2..j]))) < PairCount(name)
  {
    var p := name[i + 2..j];
    assert name[i..i + 2] == PlaceholderOpen && name[j..j + 2] == PlaceholderClose;
    assert name[i..j + 2] == name[i..i + 2] + p + name[j..j + 2];
    var g := Placeholder(p);
    var r := Replacement(p);
    assert PairCount(PlaceholderOpen) == 1;
    assert PairCount(PlaceholderClose) == 0;
    assert PairCount("\"${") == 0;
    PairCountConcat(PlaceholderOpen, p);
    PairCountConcat(PlaceholderOpen + p, PlaceholderClose);
    PairCountConcat("\"${", p);
    PairCountConcat("\"${" + p, PlaceholderClose);
    assert g[|g| - 1] == '"' && r[|r| - 1] == '"';
    assert OccursAt(name, g, i);
    ReplaceAllPairs(name, g, r);
  }

  /** The rewrite loop as a function: the rewritten name and the parameter
      names in the order the loop appends them. */
  function Rewritten(name: string): (r: (string, seq<string>))
    ensures ParMatch(r.0).None?
    ensures |r.1| <= PairCount(name)
    ensures ParMatch(name).None? ==> r == (name, [])
    decreases PairCount(name)
  {
    match ParMatch(name)
    case None => (name, [])
    case Some(m) =>
      var i, j := m.0, m.1;
      PlaceholderStep(name, i, j);
      var p := name[i + 2..j];
      var rest := Rewritten(ReplaceAll(name, name[i..j + 2], Replacement(p)));
      (rest.0, [p] + rest.1)
  }

  /** One turn of the rewrite: the first placeholder's group comes first
      among the parameters, and the rest is the rewrite of the text with
      every copy of the matched text replaced. */
  lemma {:induction false} RewrittenStep(name: string, i: nat, j: nat)
    requires ParMatch(name) == Some((i, j))
    ensures var p := name[i + 2..j];
            Rewritten(name) == (Rewritten(ReplaceAll(name, name[i..j + 2], Replacement(p))).0,
                                [p] + Rewritten(ReplaceAll(name, name[i..j + 2], Replacement(p))).1)
  {
    var m := ParMatch(name).value;
    assert m.0 == i && m.1 == j;
    var p := name[i + 2..j];
    var next := ReplaceAll(name, name[i..j + 2], Replacement(p));
    var rest := Rewritten(next);
    assert Rewritten(name) == (rest.0, [p] + rest.1);
  }

  /** The rewrite loop: while the name holds a placeholder, every copy of
      the matched text is replaced and its group appended to the
      parameters. It stops because each turn uses up a `"{` pair. */
  method ReplacePlaceholders(name: string) returns (rewritten: string, parameters: seq<string>)
    ensures (rewritten, parameters) == Rewritten(name)
  {
    rewritten := name;
    parameters := [];
    var m := ParMatch(rewritten);
    assert parameters + Rewritten(rewritten).1 == Rewritten(rewritten).1;
    while m.Some?
      invariant m == ParMatch(rewritten)
      invariant Rewritten(name) == (Rewritten(rewritten).0, parameters + Rewritten(rewritten).1)
      decreases PairCount(rewritten)
    {
      var (i, j) := m.value;
      PlaceholderStep(rewritten, i, j);
      var p := rewritten[i + 2..j];
      RewrittenStep(rewritten, i, j);
      ghost var rest := Rewritten(ReplaceAll(rewritten, rewritten[i..j + 2], Replacement(p))).1;
      assert parameters + ([p] + rest) == (parameters + [p]) + rest;
      rewritten := ReplaceAll(rewritten, rewritten[i..j + 2], Replacement(p));
      parameters := parameters + [p];
      m := ParMatch(rewritten);
    }
    assert parameters + [] == parameters;
  }

  /** Replacing leaves a prefix alone when it holds no character the
      pattern starts with. */
  lemma {:induction false} ReplaceAllPrefix(a: string, t: string, g: string, rep: string)
    requires |g| > 0 && NoQuote(a, g[0])
    ensures ReplaceAll(a + t, g, rep) == a + ReplaceAll(t, g, rep)
    decreases |a|
  {
    if |a| == 0 {
      assert a + t == t;
    } else {
      assert (a + t)[0] == a[0];
      assert !StartsWith(a + t, g) by {
        if |g| <= |a + t| {
          assert (a + t)[..|g|][0] == a[0];
        }
      }
      assert (a + t)[1..] == a[1..] + t;
      ReplaceAllPrefix(a[1..], t, g, rep);
    }
  }

  /** The first match, recognised from the characters of the name: a
      placeholder at `i`..`j + 2` with no double quote before it or
      inside it. */
  lemma {:induction false} ParMatchAt(name: string, i: nat, j: nat)
    requires i + 2 <= j && j + 2 <= |name|
    requires name[i] == '"' && name[i + 1] == '{' && name[j] == '}' && name[j + 1] == '"'
    requires forall k | 0 <= k < i :: name[k] != '"'
    requires forall k | i + 3 <= k <= j :: name[k] != '"'
    ensures ParMatch(name) == Some((i, j))
  {
    assert OccursAt(name, PlaceholderOpen, i) by { assert name[i..i + 2] == PlaceholderOpen; }
    assert OccursAt(name, PlaceholderClose, j) by { assert name[j..j + 2] == PlaceholderClose; }
    forall k: nat | k < i ensures !OccursAt(name, PlaceholderOpen, k) {
      assert name[k] != '"';
      assert k + 2 <= |name| ==> name[k..k + 2][0] == name[k];
    }
    forall k: nat | i + 2 <= k < j ensures !OccursAt(name, PlaceholderClose, k) {
      assert name[k + 1] != '"';
      assert k + 2 <= |name| ==> name[k..k + 2][1] == name[k + 1];
    }
  }

  /** In a text whose only double quotes are those of one placeholder,
      that placeholder is the first match. */
  lemma {:induction false} OnePlaceholderMatch(a: string, x: string, b: string, name: string, i: nat, j: nat)
    requires NoQuote(a, '"') && NoQuote(x, '"') && NoQuote(b, '"')
    requires name == a + Placeholder(x) + b && i == |a| && j == |a| + 2 + |x|
    ensures ParMatch(name) == Some((i, j)) && name[i + 2..j] == x && name[i..j + 2] == Placeholder(x)
  {
    assert name[i..j + 2] == Placeholder(x);
    assert name[i + 2..j] == x;
    assert forall k | 0 <= k < i :: name[k] == a[k];
    assert forall k | i + 2 <= k < j :: name[k] == x[k - i - 2];
    assert name[i] == '"' && name[i + 1] == '{' && name[j] == '}' && name[j + 1] == '"';
    ParMatchAt(name, i, j);
  }

  /** Replacing that placeholder touches nothing else. */
  lemma {:induction false} OnePlaceholderReplaced(a: string, x: string, b: string)
    requires NoQuote(a, '"') && NoQuote(b, '"')
    ensures ReplaceAll(a + Placeholder(x) + b, Placeholder(x), Replacement(x)) == a + Replacement(x) + b
  {
    var g := Placeholder(x);
    var rep := Replacement(x);
    assert a + g + b == a + (g + b);
    ReplaceAllPrefix(a, g + b, g, rep);
    assert StartsWith(g + b, g) && (g + b)[|g|..] == b;
    ReplaceAllPrefix(b, "", g, rep);
    assert b + "" == b;
    assert ReplaceAll("", g, rep) == "";
    assert a + (rep + b) == a + rep + b;
  }

  /** After the rewrite no placeholder is left: the quote that opened it
      is followed by `$`, and no quote follows the one that closes it. */
  lemma {:induction false} OnePlaceholderGone(a: string, x: string, b: string)
    requires NoQuote(a, '"') && NoQuote(x, '"') && NoQuote(b, '"')
    ensures ParMatch(a + Replacement(x) + b).None?
  {
    var next := a + Replacement(x) + b;
    var i := |a|;
    var q := |a| + |Replacement(x)| - 1;
    assert forall k | 0 <= k < |next| && next[k] == '"' :: k == i || k == q by {
      assert forall k | 0 <= k < |a| :: next[k] == a[k];
      assert forall k | i + 3 <= k < q - 1 :: next[k] == x[k - i - 3];
      assert next[q - 1] == '}' && next[i + 1] == '$' && next[i + 2] == '{';
      assert forall k | q < k < |next| :: next[k] == b[k - q - 1];
    }
    assert next[i + 1] == '$';
    forall k: nat, l: nat | k + 2 <= l && l + 2 <= |next| && OccursAt(next, PlaceholderOpen, k)
      ensures !OccursAt(next, PlaceholderClose, l)
    {
      assert next[k] == next[k..k + 2][0] && next[k + 1] == next[k..k + 2][1];
      assert k == q;
      assert next[l + 1] != '"';
      assert next[l..l + 2][1] == next[l + 1];
    }
  }

  /** A rewrite that takes one turn. */
  lemma {:induction false} RewrittenOnce(name: string, i: nat, j: nat, next: string)
    requires ParMatch(name) == Some((i, j))
    requires ReplaceAll(name, name[i..j + 2], Replacement(name[i + 2..j])) == next
    requires ParMatch(next).None?
    ensures Rewritten(name) == (next, [name[i + 2..j]])
  {
    RewrittenStep(name, i, j);
    assert [name[i + 2..j]] + [] == [name[i + 2..j]];
  }

  /** A step text with one placeholder and no other double quote becomes
      the text with that placeholder rewritten, with the one parameter. */
  lemma {:induction false} OnePlaceholder(a: string, x: string, b: string)
    requires NoQuote(a, '"') && NoQuote(x, '"') && NoQuote(b, '"')
    ensures Rewritten(a + Placeholder(x) + b) == (a + Replacement(x) + b, [x])
  {
    var name := a + Placeholder(x) + b;
    var i := |a|;
    var j := |a| + 2 + |x|;
    var next := a + Replacement(x) + b;
    OnePlaceholderMatch(a, x, b, name, i, j);
    assert ReplaceAll(name, Placeholder(x), Replacement(x)) == next by {
      OnePlaceholderReplaced(a, x, b);
    }
    assert ParMatch(next).None? by {
      OnePlaceholderGone(a, x, b);
    }
    RewrittenOnce(name, i, j, next);
  }

  // ---------------------------------------------------------------------
  // Keywords

  const Description := "Import from Behave."

  /** The name prefix: the `--praefix` argument followed by a dot, or
      nothing when the argument is absent. */
  function Prefix(praefix: Option<string>): string {
    match praefix
    case None => ""
    case Some(x) => x + "."
  }

  /** The parameter list: one entry per name, without a description. */
  function ParamList(names: seq<string>): (r: seq<NewParam>)
    ensures NewParamNames(r) == names
    ensures forall k | 0 <= k < |r| :: r[k].description.None?
  {
    seq(|names|, k requires 0 <= k < |names| => NewParam(names[k], None))
  }

  /** What one catalogue line asks for, with the library its step belongs
      to: nothing unless the stripped line is longer than one character,
      starts with `@` and matches the step pattern. */
  function StepRequest(praefix: Option<string>, line: string): (r: Option<(NewKeyword, string)>)
    ensures r.Some? ==> |Strip(line)| > 1 && Strip(line)[0] == '@'
    ensures r.Some? ==> StartsWith(r.value.0.name, Prefix(praefix)) &&
                        ParMatch(r.value.0.name[|Prefix(praefix)|..]).None?
    ensures r.Some? ==> |r.value.0.parlist| <= |line|
  {
    var current := Strip(line);
    if |current| > 1 && current[0] == '@' then
      match StepMatch(current)
      case None => None
      case Some((lib, name)) =>
        var (rewritten, parameters) := Rewritten(name);
        assert |name| <= |current|;
        assert PairCount(name) <= |name| by { PairCountBound(name); }
        var k := NewKeyword(Prefix(praefix) + rewritten, Some(Description), ParamList(parameters));
        assert k.name[|Prefix(praefix)|..] == rewritten;
        Some((k, lib))
    else None
  }

  lemma {:induction false} PairCountBound(s: string)
    ensures PairCount(s) <= |s|
  {
    if |s| >= 2 {
      PairCountBound(s[1..]);
    }
  }

  /** A catalogue line `@lib('text')`, whitespace around it allowed, asks
      for the keyword named after the rewritten text, with the prefix. */
  lemma {:induction false} StepRequestLine(praefix: Option<string>, left: string, lib: string, name: string, right: string)
    requires AllSpace(left) && AllSpace(right) && NoQuote(name, '\'')
    ensures var r := StepRequest(praefix, left + ("@" + lib + "('" + name + "')") + right);
            r == Some((NewKeyword(Prefix(praefix) + Rewritten(name).0, Some(Description), ParamList(Rewritten(name).1)), lib))
  {
    var t := "@" + lib + "('" + name + "')";
    assert t[0] == '@' && t[|t| - 1] == ')';
    StripPadded(left, t, right);
    StepMatchLine(lib, name);
  }

  /** The variables of the update that follows a creation. */
  function LibraryVariables(lib: string): seq<(string, string)> {
    [("isImplemented", "true"), ("library", Upper(lib))]
  }

  /** The requests for one step: those of `get_or_create_kwd` (no signature
      check, update level 0), then the library update of a created
      keyword. */
  function StepEvents(list: seq<Keyword>, productId: string, k: NewKeyword, lib: string,
                      parameterized: (string, string) -> bool, keywordId: string, paramIds: seq<string>)
    : (r: seq<Event>)
    requires |paramIds| == |k.parlist|
    ensures FirstMatch(list, k.name, parameterized).Some? ==> r == []
    ensures FirstMatch(list, k.name, parameterized).None? ==>
              |r| == 2 + |k.parlist| && r[0] == KeywordCreated(productId, CreateVariables(k), keywordId) &&
              r[|r| - 1] == KeywordUpdated(productId, keywordId, LibraryVariables(lib))
  {
    var created := FirstMatch(list, k.name, parameterized).None?;
    assert created ==> |ParamEvents(productId, keywordId, k.parlist, paramIds)| == |k.parlist| by {
      ParamEventsLength(productId, keywordId, k.parlist, paramIds);
    }
    KeywordEvents(list, productId, k, 0, parameterized, keywordId, paramIds) +
    if created then [KeywordUpdated(productId, keywordId, LibraryVariables(lib))] else []
  }

  lemma {:induction false} ParamEventsLength(productId: string, keywordId: string, parlist: seq<NewParam>,
                                             ids: seq<string>)
    requires |ids| == |parlist|
    ensures |ParamEvents(productId, keywordId, parlist, ids)| == |parlist|
    decreases |parlist|
  {
    if |parlist| > 0 {
      ParamEventsLength(productId, keywordId, parlist[1..], ids[1..]);
    }
  }

  /** One step line: get or create the keyword; a created one is marked
      implemented in its library. The answer says whether it was
      created. */
  method ImportStep(api: Api, productId: string, k: NewKeyword, lib: string, fetched: seq<Keyword>,
                    parameterized: (string, string) -> bool, keywordId: string, paramIds: seq<string>)
    returns (created: bool)
    requires |paramIds| == |k.parlist|
    modifies api`keywordList, api`log
    ensures api.keywordList == Some(if old(api.keywordList).None? then fetched else old(api.keywordList).value)
    ensures created <==> FirstMatch(api.keywordList.value, k.name, parameterized).None?
    ensures api.log == old(api.log) + StepEvents(api.keywordList.value, productId, k, lib, parameterized, keywordId, paramIds)
  {
    var r := GetOrCreateKwd(api, productId, k, false, 0, fetched, parameterized, keywordId, paramIds);
    if r.action == Created {
      api.Send(KeywordUpdated(productId, r.id, LibraryVariables(lib)));
      created := true;
    } else {
      created := false;
    }
  }

  // ---------------------------------------------------------------------
  // The import loop

  /** An optional value as a sequence of zero or one element. */
  function AsSeq<T>(o: Option<T>): (r: seq<T>)
    ensures |r| == if o.Some? then 1 else 0
  {
    if o.Some? then [o.value] else []
  }

  /** The requests of the first `i` lines of the catalogue, in order. */
  function Requests(praefix: Option<string>, lines: seq<string>, i: nat): (r: seq<(NewKeyword, string)>)
    requires i <= |lines|
    ensures |r| <= i
  {
    if i == 0 then [] else Requests(praefix, lines, i - 1) + AsSeq(StepRequest(praefix, lines[i - 1]))
  }

  function ParamIds(paramIds: (nat, nat) -> string, n: nat, count: nat): (r: seq<string>)
    ensures |r| == count
  {
    seq(count, j requires 0 <= j < count => paramIds(n, j))
  }

  /** The requests the import sends for a list of step requests against a
      keyword cache that stays as first fetched: keywords created during
      the run are not added to it. */
  function ImportEvents(list: seq<Keyword>, productId: string, reqs: seq<(NewKeyword, string)>,
                        parameterized: (string, string) -> bool, keywordIds: nat -> string,
                        paramIds: (nat, nat) -> string): seq<Event>
  {
    if |reqs| == 0 then []
    else
      var n := |reqs| - 1;
      ImportEvents(list, productId, reqs[..n], parameterized, keywordIds, paramIds) +
      StepEvents(list, productId, reqs[n].0, reqs[n].1, parameterized, keywordIds(n),
                 ParamIds(paramIds, n, |reqs[n].0.parlist|))
  }

  /** How many requests name no keyword of the cache. */
  function CreatedCount(list: seq<Keyword>, reqs: seq<(NewKeyword, string)>,
                        parameterized: (string, string) -> bool): (n: nat)
    ensures n <= |reqs|
  {
    if |reqs| == 0 then 0
    else
      CreatedCount(list, reqs[..|reqs| - 1], parameterized) +
      if FirstMatch(list, reqs[|reqs| - 1].0.name, parameterized).None? then 1 else 0
  }

  /** The keywords created are announced one `KeywordCreated` each. */
  function CreatedAnnounced(log: seq<Event>): (n: nat)
    ensures n <= |log|
  {
    if |log| == 0 then 0
    else CreatedAnnounced(log[..|log| - 1]) + if log[|log| - 1].KeywordCreated? then 1 else 0
  }

  lemma {:induction false} CreatedAnnouncedConcat(a: seq<Event>, b: seq<Event>)
    ensures CreatedAnnounced(a + b) == CreatedAnnounced(a) + CreatedAnnounced(b)
    decreases |b|
  {
    if |b| == 0 {
      assert a + b == a;
    } else {
      assert (a + b)[..|a + b| - 1] == a + b[..|b| - 1];
      CreatedAnnouncedConcat(a, b[..|b| - 1]);
    }
  }

  lemma {:induction false} ParamEventsAnnounceNothing(productId: string, keywordId: string, parlist: seq<NewParam>,
                                                      ids: seq<string>)
    requires |ids| == |parlist|
    ensures CreatedAnnounced(ParamEvents(productId, keywordId, parlist, ids)) == 0
    decreases |parlist|
  {
    if |parlist| > 0 {
      var e := KeywordParamCreated(productId, keywordId, ParamVariables(parlist[0]), ids[0]);
      var rest := ParamEvents(productId, keywordId, parlist[1..], ids[1..]);
      ParamEventsAnnounceNothing(productId, keywordId, parlist[1..], ids[1..]);
      CreatedAnnouncedConcat([e], rest);
      assert CreatedAnnounced([e]) == 0 by { assert [e][..0] == []; }
    }
  }

  /** The counter of created keywords equals the number of keyword
      creations the import sends. */
  lemma {:induction false} CreatedCountAnnounced(list: seq<Keyword>, productId: string, reqs: seq<(NewKeyword, string)>,
                                                 parameterized: (string, string) -> bool, keywordIds: nat -> string,
                                                 paramIds: (nat, nat) -> string)
    ensures CreatedAnnounced(ImportEvents(list, productId, reqs, parameterized, keywordIds, paramIds)) ==
            CreatedCount(list, reqs, parameterized)
    decreases |reqs|
  {
    if |reqs| > 0 {
      var n := |reqs| - 1;
      var (k, lib) := reqs[n];
      var ids := ParamIds(paramIds, n, |k.parlist|);
      CreatedCountAnnounced(list, productId, reqs[..n], parameterized, keywordIds, paramIds);
      var step := StepEvents(list, productId, k, lib, parameterized, keywordIds(n), ids);
      CreatedAnnouncedConcat(ImportEvents(list, productId, reqs[..n], parameterized, keywordIds, paramIds), step);
      if FirstMatch(list, k.name, parameterized).None? {
        var head := [KeywordCreated(productId, CreateVariables(k), keywordIds(n))];
        var params := ParamEvents(productId, keywordIds(n), k.parlist, ids);
        var tail := [KeywordUpdated(productId, keywordIds(n), LibraryVariables(lib))];
        assert step == head + params + tail;
        ParamEventsAnnounceNothing(productId, keywordIds(n), k.parlist, ids);
        CreatedAnnouncedConcat(head + params, tail);
        CreatedAnnouncedConcat(head, params);
        assert CreatedAnnounced(head) == 1 by { assert head[..0] == []; }
        assert CreatedAnnounced(tail) == 0 by { assert tail[..0] == []; }
      } else {
        assert step == [];
      }
    }
  }

  /** The requests one optional step request adds, as the `n`-th request. */
  function RequestEvents(list: seq<Keyword>, productId: string, request: Option<(NewKeyword, string)>,
                         parameterized: (string, string) -> bool, keywordIds: nat -> string,
                         paramIds: (nat, nat) -> string, n: nat): seq<Event>
  {
    if request.None? then []
    else
      var (k, lib) := request.value;
      StepEvents(list, productId, k, lib, parameterized, keywordIds(n), ParamIds(paramIds, n, |k.parlist|))
  }

  /** Whether an optional step request creates its keyword. */
  function Creates(list: seq<Keyword>, request: Option<(NewKeyword, string)>,
                   parameterized: (string, string) -> bool): nat {
    if request.Some? && FirstMatch(list, request.value.0.name, parameterized).None? then 1 else 0
  }

  lemma {:induction false} ImportSnoc(list: seq<Keyword>, productId: string, reqs: seq<(NewKeyword, string)>,
                   request: Option<(NewKeyword, string)>, parameterized: (string, string) -> bool,
                   keywordIds: nat -> string, paramIds: (nat, nat) -> string)
    ensures ImportEvents(list, productId, reqs + AsSeq(request), parameterized, keywordIds, paramIds) ==
            ImportEvents(list, productId, reqs, parameterized, keywordIds, paramIds) +
            RequestEvents(list, productId, request, parameterized, keywordIds, paramIds, |reqs|)
    ensures CreatedCount(list, reqs + AsSeq(request), parameterized) ==
            CreatedCount(list, reqs, parameterized) + Creates(list, request, parameterized)
  {
    if request.Some? {
      assert (reqs + AsSeq(request))[..|reqs|] == reqs;
    } else {
      assert reqs + AsSeq(request) == reqs;
    }
  }

  /** The keyword cache the import works with. */
  function Cache(keywordList: Option<seq<Keyword>>, fetched: seq<Keyword>): seq<Keyword> {
    if keywordList.None? then fetched else keywordList.value
  }

  /** What one catalogue line asks for, computed as the import does it,
      with the rewrite loop. */
  method LineRequest(praefix: Option<string>, line: string) returns (r: Option<(NewKeyword, string)>)
    ensures r == StepRequest(praefix, line)
  {
    r := None;
    var current := Strip(line);
    if |current| > 1 && current[0] == '@' {
      var m := StepMatch(current);
      if m.Some? {
        var (lib, name) := m.value;
        var rewritten, parameters := ReplacePlaceholders(name);
        r := Some((NewKeyword(Prefix(praefix) + rewritten, Some(Description), ParamList(parameters)), lib));
      }
    }
  }

  /** One optional step request as the `n`-th request: nothing for a
      line that asks for nothing, otherwise the keyword import, counted as
      created or reused. */
  method ImportRequest(api: Api, productId: string, request: Option<(NewKeyword, string)>, fetched: seq<Keyword>,
                       parameterized: (string, string) -> bool, keywordIds: nat -> string,
                       paramIds: (nat, nat) -> string, n: nat)
    returns (created: nat, reused: nat)
    modifies api`keywordList, api`log
    ensures created + reused == |AsSeq(request)|
    ensures created == Creates(Cache(old(api.keywordList), fetched), request, parameterized)
    ensures api.keywordList == if request.None? then old(api.keywordList) else Some(Cache(old(api.keywordList), fetched))
    ensures api.log == old(api.log) + RequestEvents(Cache(old(api.keywordList), fetched), productId, request,
                                                    parameterized, keywordIds, paramIds, n)
  {
    created, reused := 0, 0;
    if request.Some? {
      var (k, lib) := request.value;
      var isNew := ImportStep(api, productId, k, lib, fetched, parameterized, keywordIds(n),
                              ParamIds(paramIds, n, |k.parlist|));
      if isNew {
        created := 1;
      } else {
        reused := 1;
      }
    }
  }

  /** The state after the step requests `reqs`: the counters split them
      into created and reused, the cache is loaded once a request was made,
      and the log holds the requests sent for them. */
  ghost predicate ImportedUpTo(keywordList: Option<seq<Keyword>>, log: seq<Event>, productId: string,
                               reqs: seq<(NewKeyword, string)>, fetched: seq<Keyword>,
                               parameterized: (string, string) -> bool, keywordIds: nat -> string,
                               paramIds: (nat, nat) -> string, keywordList0: Option<seq<Keyword>>,
                               log0: seq<Event>, created: nat, reused: nat)
  {
    var list := Cache(keywordList0, fetched);
    created + reused == |reqs| &&
    created == CreatedCount(list, reqs, parameterized) &&
    keywordList == (if created + reused == 0 then keywordList0 else Some(list)) &&
    log == log0 + ImportEvents(list, productId, reqs, parameterized, keywordIds, paramIds)
  }

  /** One more request, imported as `ImportRequest` imports it, keeps the
      state as after the requests so far. */
  lemma {:induction false} ImportedUpToStep(keywordList: Option<seq<Keyword>>, log: seq<Event>, productId: string,
                         reqs: seq<(NewKeyword, string)>, request: Option<(NewKeyword, string)>, fetched: seq<Keyword>,
                         parameterized: (string, string) -> bool, keywordIds: nat -> string,
                         paramIds: (nat, nat) -> string, keywordList0: Option<seq<Keyword>>, log0: seq<Event>,
                         countCreated: nat, countReused: nat, created: nat, reused: nat,
                         keywordList': Option<seq<Keyword>>, log': seq<Event>)
    requires ImportedUpTo(keywordList, log, productId, reqs, fetched, parameterized, keywordIds, paramIds,
                          keywordList0, log0, countCreated, countReused)
    requires created + reused == |AsSeq(request)|
    requires created == Creates(Cache(keywordList, fetched), request, parameterized)
    requires keywordList' == if request.None? then keywordList else Some(Cache(keywordList, fetched))
    requires log' == log + RequestEvents(Cache(keywordList, fetched), productId, request, parameterized, keywordIds,
                                         paramIds, countCreated + countReused)
    ensures ImportedUpTo(keywordList', log', productId, reqs + AsSeq(request), fetched, parameterized, keywordIds,
                         paramIds, keywordList0, log0, countCreated + created, countReused + reused)
  {
    var list := Cache(keywordList0, fetched);
    assert Cache(keywordList, fetched) == list;
    var before := ImportEvents(list, productId, reqs, parameterized, keywordIds, paramIds);
    var step := RequestEvents(list, productId, request, parameterized, keywordIds, paramIds, |reqs|);
    AppendAssociative(log0, before, step);
    ImportSnoc(list, productId, reqs, request, parameterized, keywordIds, paramIds);
  }

  /** One pass of the line loop: line `i` is read and its keyword, if it
      asks for one, imported; the counters, the cache and the log then
      stand as after the first `i + 1` lines. */
  method ImportLine(api: Api, productId: string, praefix: Option<string>, lines: seq<string>, i: nat,
                    fetched: seq<Keyword>, parameterized: (string, string) -> bool, keywordIds: nat -> string,
                    paramIds: (nat, nat) -> string, ghost keywordList0: Option<seq<Keyword>>,
                    ghost log0: seq<Event>, ghost reqs: seq<(NewKeyword, string)>, countCreated: nat,
                    countReused: nat)
    returns (created: nat, reused: nat, ghost reqs': seq<(NewKeyword, string)>)
    modifies api`keywordList, api`log
    requires i < |lines| && reqs == Requests(praefix, lines, i)
    requires ImportedUpTo(api.keywordList, api.log, productId, reqs, fetched, parameterized, keywordIds, paramIds,
                          keywordList0, log0, countCreated, countReused)
    ensures reqs' == Requests(praefix, lines, i + 1)
    ensures ImportedUpTo(api.keywordList, api.log, productId, reqs', fetched, parameterized, keywordIds, paramIds,
                         keywordList0, log0, countCreated + created, countReused + reused)
  {
    ghost var keywordList, log := api.keywordList, api.log;
    var request := LineRequest(praefix, lines[i]);
    reqs' := reqs + AsSeq(request);
    created, reused := ImportRequest(api, productId, request, fetched, parameterized, keywordIds, paramIds,
                                     countCreated + countReused);
    ImportedUpToStep(keywordList, log, productId, reqs, request, fetched, parameterized, keywordIds, paramIds,
                     keywordList0, log0, countCreated, countReused, created, reused, api.keywordList, api.log);
  }

  /** The line loop: every line that asks for a keyword gets it, and exactly
      one of the two counters goes up for it. The ids the service assigns
      to the `n`-th keyword and its parameters are `keywordIds(n)` and
      `paramIds(n, j)`. */
  method ImportSteps(api: Api, productId: string, praefix: Option<string>, lines: seq<string>, fetched: seq<Keyword>,
                     parameterized: (string, string) -> bool, keywordIds: nat -> string,
                     paramIds: (nat, nat) -> string)
    returns (countCreated: nat, countReused: nat)
    modifies api`keywordList, api`log
    ensures countCreated + countReused == |Requests(praefix, lines, |lines|)|
    ensures countCreated == CreatedCount(Cache(old(api.keywordList), fetched), Requests(praefix, lines, |lines|),
                                         parameterized)
    ensures api.keywordList == if |Requests(praefix, lines, |lines|)| == 0 then old(api.keywordList)
                               else Some(Cache(old(api.keywordList), fetched))
    ensures api.log == old(api.log) + ImportEvents(Cache(old(api.keywordList), fetched), productId,
                                                   Requests(praefix, lines, |lines|), parameterized, keywordIds, paramIds)
  {
    countCreated, countReused := 0, 0;
    ghost var keywordList0, log0 := api.keywordList, api.log;
    ghost var reqs: seq<(NewKeyword, string)> := [];
    var i := 0;
    while i < |lines|
      invariant 0 <= i <= |lines| && reqs == Requests(praefix, lines, i)
      invariant ImportedUpTo(api.keywordList, api.log, productId, reqs, fetched, parameterized, keywordIds, paramIds,
                             keywordList0, log0, countCreated, countReused)
    {
      var created, reused;
      created, reused, reqs := ImportLine(api, productId, praefix, lines, i, fetched, parameterized, keywordIds,
                                          paramIds, keywordList0, log0, reqs, countCreated, countReused);
      countCreated, countReused := countCreated + created, countReused + reused;
      i := i + 1;
    }
  }
}
