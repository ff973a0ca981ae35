/** Filter matching, separator-insensitive comparison and the string to
    boolean conversion used to read custom fields and configuration. */
module ComparisonUtils {
  import opened Common

  /** A record fetched from the service, with every value in its `str()`
      rendering. */
  type Item = map<string, string>

  /** A filter value is compared either as a string or as a regular
      expression searched for in the item's value. */
  datatype FilterValue = Literal(text: string) | Pattern(regex: string)

  /** A filter dictionary, in its iteration order. */
  type Filter = seq<(string, FilterValue)>

  /** `item.get(key, "")`. */
  function ItemValue(item: Item, key: string): (v: string)
    ensures key !in item ==> v == ""
    ensures key in item ==> v == item[key]
  {
    if key in item then item[key] else ""
  }

  /** One filter entry holds for an item; `search(regex, text)` stands for
      `re.search(regex, text) != None`. */
  predicate EntryMatches(item: Item, entry: (string, FilterValue), search: (string, string) -> bool) {
    match entry.1
    case Literal(t) => t == ItemValue(item, entry.0)
    case Pattern(rx) => search(rx, ItemValue(item, entry.0))
  }

  /** Every entry of the filter holds for the item. */
  predicate MatchesAll(item: Item, filter: Filter, search: (string, string) -> bool) {
    forall i | 0 <= i < |filter| :: EntryMatches(item, filter[i], search)
  }

  /** `is_matching`: the entries are evaluated in order and the loop stops
      at the first one that does not hold; `examined` counts the entries
      that were evaluated. */
  method IsMatching(item: Item, filter: Filter, search: (string, string) -> bool)
    returns (matching: bool, ghost examined: nat)
    ensures matching <==> MatchesAll(item, filter, search)
    ensures |filter| == 0 ==> matching
    ensures examined <= |filter|
    ensures matching ==> examined == |filter|
    ensures !matching ==> 0 < examined && !EntryMatches(item, filter[examined - 1], search)
    ensures forall j | 0 <= j < examined - 1 :: EntryMatches(item, filter[j], search)
  {
    matching := true;
    examined := 0;
    var i := 0;
    while i < |filter|
      invariant 0 <= i <= |filter| && examined == i && matching
      invariant forall j | 0 <= j < i :: EntryMatches(item, filter[j], search)
    {
      var (key, fvalue) := filter[i];
      var ivalue := ItemValue(item, key);
      match fvalue {
        case Pattern(rx) => matching := search(rx, ivalue);
        case Literal(t) => matching := t == ivalue;
      }
      examined := examined + 1;
      if !matching {
        break;
      }
      i := i + 1;
    }
  }

  // ---------------------------------------------------------------------
  // Separator-insensitive equality

  predicate IsSeparator(c: char) {
    c == ' ' || c == '-' || c == '_'
  }

  /** ASCII `upper()` of one character. */
  function UpperChar(c: char): char {
    if 'a' <= c <= 'z' then (c as int - 32) as char else c
  }

  /** ASCII `lower()` of one character. */
  function LowerChar(c: char): char {
    if 'A' <= c <= 'Z' then (c as int + 32) as char else c
  }

  function Upper(s: string): (r: string)
    ensures |r| == |s| && forall i | 0 <= i < |s| :: r[i] == UpperChar(s[i])
  {
    if |s| == 0 then "" else [UpperChar(s[0])] + Upper(s[1..])
  }

  function Lower(s: string): (r: string)
    ensures |r| == |s| && forall i | 0 <= i < |s| :: r[i] == LowerChar(s[i])
  {
    if |s| == 0 then "" else [LowerChar(s[0])] + Lower(s[1..])
  }

  /** The key the source compares: the three separators removed by three
      successive `replace` calls, then upper-cased. */
  function SeparatorFreeKey(s: string): string {
    Upper(ReplaceAll(ReplaceAll(ReplaceAll(s, " ", ""), "-", ""), "_", ""))
  }

  /** The same key stated character by character: separators dropped, every
      other character upper-cased. */
  function Canonical(s: string): (r: string)
    ensures |r| <= |s|
  {
    if |s| == 0 then ""
    else if IsSeparator(s[0]) then Canonical(s[1..])
    else [UpperChar(s[0])] + Canonical(s[1..])
  }

  /** `s` with every occurrence of `c` removed. */
  function Without(s: string, c: char): (r: string)
    ensures c !in r && |r| <= |s|
  {
    if |s| == 0 then "" else if s[0] == c then Without(s[1..], c) else [s[0]] + Without(s[1..], c)
  }

  lemma {:induction false} ReplaceCharIsWithout(s: string, c: char)
    ensures ReplaceAll(s, [c], "") == Without(s, c)
  {
    if |s| > 0 {
      ReplaceCharIsWithout(s[1..], c);
      if s[0] == c {
        assert StartsWith(s, [c]);
        assert s[|[c]|..] == s[1..];
      } else {
        assert !StartsWith(s, [c]);
      }
    }
  }

  /** Dropping the three separators one after another leaves what the
      character-by-character definition keeps. */
  lemma {:induction false} WithoutSeparators(s: string)
    ensures Upper(Without(Without(Without(s, ' '), '-'), '_')) == Canonical(s)
  {
    if |s| > 0 {
      WithoutSeparators(s[1..]);
      if !IsSeparator(s[0]) {
        var t := Without(Without(Without(s[1..], ' '), '-'), '_');
        assert Without(Without(Without(s, ' '), '-'), '_') == [s[0]] + t;
        assert Upper([s[0]] + t) == [UpperChar(s[0])] + Upper(t);
      }
    }
  }

  lemma {:induction false} SeparatorFreeKeyIsCanonical(s: string)
    ensures SeparatorFreeKey(s) == Canonical(s)
  {
    ReplaceCharIsWithout(s, ' ');
    assert " " == [' '];
    ReplaceCharIsWithout(Without(s, ' '), '-');
    assert "-" == ['-'];
    ReplaceCharIsWithout(Without(Without(s, ' '), '-'), '_');
    assert "_" == ['_'];
    WithoutSeparators(s);
  }

  /** `is_equal_ignore_separators`: the two strings agree once separators
      are dropped and letters are upper-cased. */
  function IsEqualIgnoreSeparators(a: string, b: string): (r: bool)
    ensures r <==> Canonical(a) == Canonical(b)
  {
    SeparatorFreeKeyIsCanonical(a);
    SeparatorFreeKeyIsCanonical(b);
    SeparatorFreeKey(a) == SeparatorFreeKey(b)
  }

  lemma {:induction false} CanonicalConcat(a: string, b: string)
    ensures Canonical(a + b) == Canonical(a) + Canonical(b)
  {
    if |a| > 0 {
      assert (a + b)[1..] == a[1..] + b;
      CanonicalConcat(a[1..], b);
    } else {
      assert a + b == b;
    }
  }

  /** Inserting a separator anywhere does not change the comparison. */
  lemma {:induction false} SeparatorInsertionInvariant(s: string, i: nat, c: char, other: string)
    requires i <= |s| && IsSeparator(c)
    ensures IsEqualIgnoreSeparators(s[..i] + [c] + s[i..], other) == IsEqualIgnoreSeparators(s, other)
    ensures IsEqualIgnoreSeparators(other, s[..i] + [c] + s[i..]) == IsEqualIgnoreSeparators(other, s)
  {
    var t := s[..i] + [c] + s[i..];
    assert Canonical(t) == Canonical(s) by {
      assert Canonical([c]) == [];
      CanonicalConcat(s[..i] + [c], s[i..]);
      CanonicalConcat(s[..i], [c]);
      CanonicalConcat(s[..i], s[i..]);
      assert s[..i] + s[i..] == s;
    }
  }

  lemma {:induction false} CanonicalOfUpper(s: string)
    ensures Canonical(Upper(s)) == Canonical(s)
  {
    if |s| > 0 {
      assert Upper(s)[1..] == Upper(s[1..]);
      CanonicalOfUpper(s[1..]);
    }
  }

  lemma {:induction false} CanonicalOfLower(s: string)
    ensures Canonical(Lower(s)) == Canonical(s)
  {
    if |s| > 0 {
      assert Lower(s)[1..] == Lower(s[1..]);
      CanonicalOfLower(s[1..]);
    }
  }

  /** The comparison key of a word starts with its first letter,
      upper-cased. */
  lemma {:induction false} CanonicalHead(s: string)
    requires |s| > 0 && !IsSeparator(s[0])
    ensures |Canonical(s)| > 0 && Canonical(s)[0] == UpperChar(s[0])
  {
  }

  /** ... and continues with its second letter, upper-cased. */
  lemma {:induction false} CanonicalSecond(s: string)
    requires |s| > 1 && !IsSeparator(s[0]) && !IsSeparator(s[1])
    ensures |Canonical(s)| > 1 && Canonical(s)[1] == UpperChar(s[1])
  {
    CanonicalHead(s[1..]);
  }

  /** Changing the letter case of either argument does not change the
      comparison. */
  lemma {:induction false} CaseInvariant(a: string, b: string)
    ensures IsEqualIgnoreSeparators(Upper(a), b) == IsEqualIgnoreSeparators(a, b)
    ensures IsEqualIgnoreSeparators(Lower(a), b) == IsEqualIgnoreSeparators(a, b)
    ensures IsEqualIgnoreSeparators(a, Upper(b)) == IsEqualIgnoreSeparators(a, b)
    ensures IsEqualIgnoreSeparators(a, Lower(b)) == IsEqualIgnoreSeparators(a, b)
  {
    CanonicalOfUpper(a);
    CanonicalOfLower(a);
    CanonicalOfUpper(b);
    CanonicalOfLower(b);
  }

  // ---------------------------------------------------------------------
  // String to boolean

  const TrueWords: seq<string> := ["True", "true", "T", "t", "1", "Yes", "yes", "Y", "y"]
  const FalseWords: seq<string> := ["False", "false", "F", "f", "0", "No", "no", "N", "n"]

  /** `stringToBoolean`: Some(true) for exactly the true words, Some(false)
      for exactly the false words, None (Python's `None`) for anything else. */
  function StringToBoolean(s: string): (r: Option<bool>)
    ensures r == Some(true) <==> s in TrueWords
    ensures r == Some(false) <==> s in FalseWords
    ensures r == None <==> s !in TrueWords && s !in FalseWords
  {
    if s in TrueWords then Some(true)
    else if s in FalseWords then Some(false)
    else None
  }

  /** Every word is non-empty and neither begins nor ends with a blank. */
  lemma {:induction false} WordsUnpadded()
    ensures forall i | 0 <= i < |TrueWords| :: 0 < |TrueWords[i]| && TrueWords[i][0] != ' ' && TrueWords[i][|TrueWords[i]| - 1] != ' '
    ensures forall i | 0 <= i < |FalseWords| :: 0 < |FalseWords[i]| && FalseWords[i][0] != ' ' && FalseWords[i][|FalseWords[i]| - 1] != ' '
  {
  }

  /** The empty string and any blank-padded string read as None. */
  lemma {:induction false} StringToBooleanRejectsPadding(s: string)
    ensures StringToBoolean("") == None
    ensures StringToBoolean(" " + s) == None && StringToBoolean(s + " ") == None
  {
    WordsUnpadded();
    var p, q := " " + s, s + " ";
    assert p[0] == ' ' && q[|q| - 1] == ' ';
    assert p !in TrueWords && p !in FalseWords;
    assert q !in TrueWords && q !in FalseWords;
  }

  /** Capitalised spellings beyond the listed ones read as None. */
  lemma {:induction false} StringToBooleanRejectsCapitals()
    ensures StringToBoolean("TRUE") == None && StringToBoolean("FALSE") == None
    ensures StringToBoolean("YES") == None && StringToBoolean("NO") == None
  {
  }

  /** No word is both a true word and a false word. */
  lemma {:induction false} WordListsDisjoint()
    ensures forall i, j | 0 <= i < |TrueWords| && 0 <= j < |FalseWords| :: TrueWords[i] != FalseWords[j]
  {
  }
}
