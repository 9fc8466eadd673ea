/**
 * Values, failures and string helpers shared by every module of the model.
 *
 * Python dictionaries and lists that flow through the code base are modelled by
 * the JSON-like `Value` type; `Obj` is a dictionary with string keys. Python's
 * truthiness, `startswith`, `endswith`, `in` on strings, `strip`, `join` and
 * `sorted` are defined here once and used by all modules.
 */
module Common {

  datatype Option<T> = None | Some(value: T) {
    function GetOr(default: T): T {
      if Some? then value else default
    }
  }

  datatype Result<T, E> = Ok(value: T) | Err(error: E)

  /** A value as YAML or JSON decoding produces it, or a Python literal of the same shape. */
  datatype Value =
    | Null
    | Bool(b: bool)
    | Int(i: int)
    | Real(r: real)
    | Str(s: string)
    | List(items: seq<Value>)
    | Dict(entries: map<string, Value>)

  /** A dictionary with string keys. */
  type Obj = map<string, Value>

  /** Python's `bool(v)`. */
  predicate Truthy(v: Value) {
    match v
    case Null => false
    case Bool(b) => b
    case Int(i) => i != 0
    case Real(r) => r != 0.0
    case Str(s) => |s| > 0
    case List(xs) => |xs| > 0
    case Dict(m) => |m| > 0
  }

  /** Python's `if s:` for an `Optional[str]`: present and non-empty. */
  predicate Given(s: Option<string>) {
    s.Some? && |s.value| > 0
  }

  /** Python's `if d:` for an `Optional[dict]`: present and non-empty. */
  predicate GivenObj(d: Option<Obj>) {
    d.Some? && |d.value| > 0
  }

  /** Python's `d or {}` for an `Optional[dict]`. */
  function ObjOrEmpty(d: Option<Obj>): (r: Obj)
    ensures GivenObj(d) ==> r == d.value
    ensures !GivenObj(d) ==> r == map[]
  {
    if d.Some? then d.value else map[]
  }

  /** Python's `d.get(k, default)`. */
  function Get(d: Obj, k: string, default: Value): Value {
    if k in d then d[k] else default
  }

  /**
   * Python's `x in container` for a string `x`: list membership, substring,
   * or dictionary key; `None` where Python raises `TypeError`.
   */
  function Contains(container: Value, x: string): (r: Option<bool>)
    ensures container.List? ==> r == Some(Str(x) in container.items)
    ensures container.Str? ==> r == Some(IsSubstring(x, container.s))
    ensures container.Dict? ==> r == Some(x in container.entries)
    ensures r.None? <==> !(container.List? || container.Str? || container.Dict?)
  {
    match container
    case List(xs) => Some(Str(x) in xs)
    case Str(s) => Some(IsSubstring(x, s))
    case Dict(m) => Some(x in m)
    case _ => None
  }

  // ---------------------------------------------------------------------------
  // Strings
  // ---------------------------------------------------------------------------

  /** Python's `s.startswith(p)`. */
  predicate StartsWith(s: string, p: string) {
    p <= s
  }

  /** Python's `s.endswith(p)`. */
  predicate EndsWith(s: string, p: string) {
    |p| <= |s| && s[|s| - |p|..] == p
  }

  /** Python's `sub in s` for two strings, scanning from the left. */
  predicate IsSubstring(sub: string, s: string)
    decreases |s|
  {
    sub <= s || (|s| > 0 && IsSubstring(sub, s[1..]))
  }

  /** `sub` occurs in `s` starting at index `i`. */
  predicate OccursAt(sub: string, s: string, i: int) {
    0 <= i && i + |sub| <= |s| && s[i..i + |sub|] == sub
  }

  /** The scan agrees with the textbook definition: `sub` occurs at some index of `s`. */
  lemma {:induction false} IsSubstringIff(sub: string, s: string)
    ensures IsSubstring(sub, s) <==> exists i :: OccursAt(sub, s, i)
    decreases |s|
  {
    if sub <= s {
      assert OccursAt(sub, s, 0);
    } else if |s| == 0 {
    } else {
      IsSubstringIff(sub, s[1..]);
      if exists i :: OccursAt(sub, s, i) {
        var i :| OccursAt(sub, s, i);
        assert i != 0;
        assert OccursAt(sub, s[1..], i - 1);
      }
      if exists i :: OccursAt(sub, s[1..], i) {
        var i :| OccursAt(sub, s[1..], i);
        assert OccursAt(sub, s, i + 1);
      }
    }
  }

  /** Number of leading characters of `s` that belong to `cs`. */
  function LeadCount(s: string, cs: set<char>): (n: nat)
    ensures n <= |s|
    ensures forall i :: 0 <= i < n ==> s[i] in cs
    ensures n < |s| ==> s[n] !in cs
  {
    if |s| > 0 && s[0] in cs then 1 + LeadCount(s[1..], cs) else 0
  }

  /** Number of trailing characters of `s` that belong to `cs`. */
  function TrailCount(s: string, cs: set<char>): (n: nat)
    ensures n <= |s|
    ensures forall i :: |s| - n <= i < |s| ==> s[i] in cs
    ensures n < |s| ==> s[|s| - 1 - n] !in cs
  {
    if |s| > 0 && s[|s| - 1] in cs then 1 + TrailCount(s[..|s| - 1], cs) else 0
  }

  /** Python's `s.strip(chars)`: drop leading, then trailing, characters of `cs`. */
  function Strip(s: string, cs: set<char>): (r: string)
    ensures |r| <= |s|
    ensures |r| > 0 ==> r[0] !in cs && r[|r| - 1] !in cs
  {
    var left := s[LeadCount(s, cs)..];
    left[..|left| - TrailCount(left, cs)]
  }

  /** `strip` removes only characters of the set: every other character keeps its count. */
  lemma StripChars(s: string, cs: set<char>)
    ensures forall c :: c !in cs ==> multiset(Strip(s, cs))[c] == multiset(s)[c]
    ensures multiset(Strip(s, cs)) <= multiset(s)
  {
    var n := LeadCount(s, cs);
    var left := s[n..];
    var t := TrailCount(left, cs);
    assert Strip(s, cs) == s[n..|s| - t];
    forall i | |s| - t <= i < |s|
      ensures s[i] in cs
    {
      assert s[i] == left[i - n];
    }
    StripKeeps(s, cs, n, |s| - t);
  }

  /** Cutting only characters of `cs` from both ends keeps every other character. */
  lemma StripKeeps(s: string, cs: set<char>, lo: nat, hi: nat)
    requires lo <= hi <= |s|
    requires forall i :: 0 <= i < lo ==> s[i] in cs
    requires forall i :: hi <= i < |s| ==> s[i] in cs
    ensures forall c :: c !in cs ==> multiset(s[lo..hi])[c] == multiset(s)[c]
    ensures multiset(s[lo..hi]) <= multiset(s)
  {
    var front, r, back := s[..lo], s[lo..hi], s[hi..];
    assert s == front + r + back;
    assert multiset(s) == multiset(front) + multiset(r) + multiset(back);
    forall c | c !in cs
      ensures multiset(r)[c] == multiset(s)[c]
    {
      NoneOf(front, cs, c);
      NoneOf(back, cs, c);
    }
  }

  /** A string that neither starts nor ends with a stripped character is its own strip. */
  lemma {:induction false} StripNothing(s: string, cs: set<char>)
    requires |s| > 0 && s[0] !in cs && s[|s| - 1] !in cs
    ensures Strip(s, cs) == s
  {
    assert LeadCount(s, cs) == 0;
    assert s[0..] == s;
    assert TrailCount(s, cs) == 0;
  }

  /** A leading character of the set is dropped by `strip` like the rest. */

  lemma {:induction false} StripLeading(c: char, s: string, cs: set<char>)
    requires c in cs
    ensures Strip([c] + s, cs) == Strip(s, cs)
  {
    assert ([c] + s)[1..] == s;
    assert LeadCount([c] + s, cs) == 1 + LeadCount(s, cs);
    assert ([c] + s)[LeadCount([c] + s, cs)..] == s[LeadCount(s, cs)..];
  }

  /** A trailing character of the set is dropped by `strip` like the rest. */
  lemma {:induction false} StripTrailing(s: string, c: char, cs: set<char>)
    requires c in cs
    ensures Strip(s + [c], cs) == Strip(s, cs)
  {
    if LeadCount(s, cs) == |s| {
      StripTrailingAll(s, c, cs);
    } else {
      StripTrailingSome(s, c, cs);
    }
  }

  /** When `s` is made only of the set, so is `s + [c]`, and both strip to nothing. */
  lemma {:induction false} StripTrailingAll(s: string, c: char, cs: set<char>)
    requires c in cs && LeadCount(s, cs) == |s|
    ensures Strip(s + [c], cs) == Strip(s, cs) == []
  {
    LeadAll(s + [c], cs);
  }

  /** When `s` has a character outside the set, the leading run is unchanged and one more trailing character is cut. */
  lemma {:induction false} StripTrailingSome(s: string, c: char, cs: set<char>)
    requires c in cs && LeadCount(s, cs) < |s|
    ensures Strip(s + [c], cs) == Strip(s, cs)
  {
    var n := LeadCount(s, cs);
    LeadPrefix(s, [c], cs);
    var left := s[n..];
    assert (s + [c])[n..] == left + [c];
    assert (left + [c])[..|left + [c]| - 1] == left;
    assert TrailCount(left + [c], cs) == 1 + TrailCount(left, cs);
  }

  /** A string made only of characters of the set is entirely a leading run. */
  lemma {:induction false} LeadAll(s: string, cs: set<char>)
    requires forall i :: 0 <= i < |s| ==> s[i] in cs
    ensures LeadCount(s, cs) == |s|
  {
    if |s| > 0 {
      LeadAll(s[1..], cs);
    }
  }

  /** Appending to a string whose leading run ends inside it leaves that run alone. */
  lemma {:induction false} LeadPrefix(s: string, u: string, cs: set<char>)
    requires LeadCount(s, cs) < |s|
    ensures LeadCount(s + u, cs) == LeadCount(s, cs)
  {
    if s[0] in cs {
      assert (s + u)[1..] == s[1..] + u;
      LeadPrefix(s[1..], u, cs);
    }
  }

  lemma NoneOf(s: string, cs: set<char>, c: char)
    requires forall i :: 0 <= i < |s| ==> s[i] in cs
    requires c !in cs
    ensures multiset(s)[c] == 0
  {
    if |s| > 0 {
      assert s == [s[0]] + s[1..];
      NoneOf(s[1..], cs, c);
    }
  }

  /** Python's `sep.join(parts)`. */
  function Join(parts: seq<string>, sep: string): (r: string)
    ensures |parts| == 1 ==> r == parts[0]
  {
    if |parts| == 0 then ""
    else if |parts| == 1 then parts[0]
    else Join(parts[..|parts| - 1], sep) + sep + parts[|parts| - 1]
  }

  /** Python's `s.replace(a, b)` for single characters. */
  function ReplaceChar(s: string, a: char, b: char): (r: string)
    ensures |r| == |s|
    ensures forall i :: 0 <= i < |s| ==> r[i] == (if s[i] == a then b else s[i])
  {
    seq(|s|, i requires 0 <= i < |s| => if s[i] == a then b else s[i])
  }

  /** The set of elements of a sequence. */
  function Elems<T>(s: seq<T>): set<T> {
    set x | x in s
  }

  lemma ElemsAppend<T>(s: seq<T>, x: T)
    ensures Elems(s + [x]) == Elems(s) + {x}
  {
  }

  /** Sorting a listing keeps its elements and its length. */
  lemma SortStringsKeeps(s: seq<string>)
    ensures Elems(SortStrings(s)) == Elems(s) && |SortStrings(s)| == |s|
  {
    var r := SortStrings(s);
    assert |r| == |multiset(r)| == |multiset(s)| == |s|;
  }

  /** A duplicate-free sequence has as many distinct elements as entries. */
  lemma {:induction false} NoDupsCard<T>(s: seq<T>)
    requires NoDups(s)
    ensures |Elems(s)| == |s|
  {
    if |s| > 0 {
      var init := s[..|s| - 1];
      assert s == init + [s[|s| - 1]];
      NoDupsCard(init);
      ElemsAppend(init, s[|s| - 1]);
      assert s[|s| - 1] !in Elems(init);
    }
  }

  /** ASCII lower-casing (Python's `str.lower` restricted to ASCII letters). */
  function LowerChar(c: char): char {
    if 'A' <= c <= 'Z' then (c as int + 32) as char else c
  }

  function Lower(s: string): (r: string)
    ensures |r| == |s|
    ensures forall i :: 0 <= i < |s| ==> r[i] == LowerChar(s[i])
  {
    seq(|s|, i requires 0 <= i < |s| => LowerChar(s[i]))
  }

  /** ASCII upper-casing (Python's `str.upper` restricted to ASCII letters). */
  function UpperChar(c: char): char {
    if 'a' <= c <= 'z' then (c as int - 32) as char else c
  }

  function Upper(s: string): (r: string)
    ensures |r| == |s|
    ensures forall i :: 0 <= i < |s| ==> r[i] == UpperChar(s[i])
  {
    seq(|s|, i requires 0 <= i < |s| => UpperChar(s[i]))
  }

  predicate IsAsciiLetter(c: char) {
    'a' <= c <= 'z' || 'A' <= c <= 'Z'
  }

  /** Python's `str.title` on ASCII text: a letter that follows a letter is lowered, any other letter raised. */
  function Title(s: string): (r: string)
    ensures |r| == |s|
    ensures |s| > 0 ==> r[0] == UpperChar(s[0])
  {
    seq(|s|, i requires 0 <= i < |s| =>
      if i > 0 && IsAsciiLetter(s[i - 1]) then LowerChar(s[i]) else UpperChar(s[i]))
  }

  /** Decimal rendering of an integer, as Python's `str(int)` and f-strings print it. */
  function IntToString(i: int): (r: string)
    ensures |r| > 0
  {
    if i < 0 then "-" + NatToString(-i) else NatToString(i)
  }

  function NatToString(n: nat): (r: string)
    ensures |r| > 0
    ensures forall k :: 0 <= k < |r| ==> '0' <= r[k] <= '9'
    decreases n
  {
    if n < 10 then [DigitChar(n)] else NatToString(n / 10) + [DigitChar(n % 10)]
  }

  function DigitChar(d: nat): (c: char)
    requires d < 10
    ensures '0' <= c <= '9'
  {
    ('0' as int + d) as char
  }

  // ---------------------------------------------------------------------------
  // Ordering and sorting (Python's `sorted` on strings and on string keys)
  // ---------------------------------------------------------------------------

  /** Python's `a <= b` on strings: lexicographic by code point, a proper prefix first. */
  predicate LexLe(a: string, b: string)
    decreases |a|
  {
    |a| == 0 || (|b| > 0 && (a[0] < b[0] || (a[0] == b[0] && LexLe(a[1..], b[1..]))))
  }

  lemma {:induction false} LexLeTotal(a: string, b: string)
    ensures LexLe(a, b) || LexLe(b, a)
    decreases |a|
  {
    if |a| > 0 && |b| > 0 && a[0] == b[0] {
      LexLeTotal(a[1..], b[1..]);
    }
  }

  lemma {:induction false} LexLeTrans(a: string, b: string, c: string)
    requires LexLe(a, b) && LexLe(b, c)
    ensures LexLe(a, c)
    decreases |a|
  {
    if |a| > 0 && a[0] == b[0] && b[0] == c[0] {
      LexLeTrans(a[1..], b[1..], c[1..]);
    }
  }

  lemma {:induction false} LexLeAntisym(a: string, b: string)
    requires LexLe(a, b) && LexLe(b, a)
    ensures a == b
    decreases |a|
  {
    if |a| > 0 {
      LexLeAntisym(a[1..], b[1..]);
      assert a == [a[0]] + a[1..] && b == [b[0]] + b[1..];
    }
  }

  predicate SortedBy<T>(s: seq<T>, key: T -> string) {
    forall i, j :: 0 <= i < j < |s| ==> LexLe(key(s[i]), key(s[j]))
  }

  predicate NoDups<T(==)>(s: seq<T>) {
    forall i, j :: 0 <= i < j < |s| ==> s[i] != s[j]
  }

  /** Appending an element whose key is not below any key keeps a sequence sorted. */
  lemma SortedSnoc<T>(s: seq<T>, x: T, key: T -> string)
    requires SortedBy(s, key)
    requires forall y :: y in s ==> LexLe(key(y), key(x))
    ensures SortedBy(s + [x], key)
  {
    var r := s + [x];
    forall i, j | 0 <= i < j < |r|
      ensures LexLe(key(r[i]), key(r[j]))
    {
      if j == |s| {
        assert r[i] == s[i] && s[i] in s;
      } else {
        assert r[i] == s[i] && r[j] == s[j];
      }
    }
  }

  /** Insert `x` after every element of the sorted `s` whose key is not greater (keeps the sort stable). */
  function InsertBy<T>(s: seq<T>, x: T, key: T -> string): (r: seq<T>)
    requires SortedBy(s, key)
    ensures SortedBy(r, key)
    ensures multiset(r) == multiset(s) + multiset{x}
  {
    if |s| == 0 then [x]
    else
      var last := s[|s| - 1];
      if LexLe(key(last), key(x)) then
        assert forall y :: y in s ==> LexLe(key(y), key(x)) by {
          forall y | y in s ensures LexLe(key(y), key(x)) {
            var i :| 0 <= i < |s| && s[i] == y;
            if i < |s| - 1 { LexLeTrans(key(s[i]), key(last), key(x)); }
          }
        }
        SortedSnoc(s, x, key);
        s + [x]
      else
        var front := s[..|s| - 1];
        assert s == front + [last];
        var r' := InsertBy(front, x, key);
        LexLeTotal(key(last), key(x));
        assert forall y :: y in r' ==> LexLe(key(y), key(last)) by {
          forall y | y in r' ensures LexLe(key(y), key(last)) {
            assert y in multiset(r');
            if y != x {
              assert y in multiset(front);
              var i :| 0 <= i < |front| && front[i] == y;
              assert s[i] == y;
            }
          }
        }
        SortedSnoc(r', last, key);
        r' + [last]
  }

  /** Python's `sorted(s, key=key)`: a stable insertion sort. */
  function SortBy<T>(s: seq<T>, key: T -> string): (r: seq<T>)
    ensures SortedBy(r, key)
    ensures multiset(r) == multiset(s)
    ensures |r| == |s|
  {
    if |s| == 0 then []
    else
      var front := s[..|s| - 1];
      assert s == front + [s[|s| - 1]];
      assert multiset(s) == multiset(front) + multiset{s[|s| - 1]};
      var r := InsertBy(SortBy(front, key), s[|s| - 1], key);
      assert |r| == |multiset(r)| == |multiset(s)| == |s|;
      r
  }

  function SelfKey(s: string): string {
    s
  }

  /** Python's `sorted(s)` on a list of strings. */
  function SortStrings(s: seq<string>): (r: seq<string>)
    ensures SortedBy(r, SelfKey)
    ensures multiset(r) == multiset(s)
    ensures forall x :: x in r <==> x in s
  {
    var r := SortBy(s, SelfKey);
    assert forall x :: x in r <==> x in multiset(r);
    assert forall x :: x in s <==> x in multiset(s);
    r
  }

  /** A sequence has no duplicates exactly when no element occurs twice in its multiset. */
  lemma {:induction false} NoDupsMultiset<T>(s: seq<T>)
    ensures NoDups(s) <==> forall x :: multiset(s)[x] <= 1
  {
    if |s| == 0 {
    } else {
      var init := s[..|s| - 1];
      var last := s[|s| - 1];
      assert s == init + [last];
      NoDupsMultiset(init);
      if NoDups(s) {
        assert NoDups(init);
        assert last !in init;
      }
      if forall x :: multiset(s)[x] <= 1 {
        forall x ensures multiset(init)[x] <= 1 {
          assert multiset(s)[x] == multiset(init)[x] + multiset([last])[x];
        }
        assert multiset(s)[last] == multiset(init)[last] + 1;
        assert last !in multiset(init);
        forall i, j | 0 <= i < j < |s| ensures s[i] != s[j] {
          if j < |s| - 1 {
            assert init[i] != init[j];
          } else {
            assert init[i] in multiset(init);
          }
        }
      }
    }
  }

  /** Sorting a duplicate-free list of strings keeps it duplicate-free. */
  lemma SortStringsNoDups(s: seq<string>)
    requires NoDups(s)
    ensures NoDups(SortStrings(s))
  {
    NoDupsMultiset(s);
    NoDupsMultiset(SortStrings(s));
  }
}
