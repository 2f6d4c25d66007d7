/** Values and string helpers shared by every part of the model: the Python
    dictionary values the services pass around, Python truthiness, and the
    handful of `str` methods the code relies on. */
module Common {

  datatype Option<T> = None | Some(value: T)

  /** Why a request or a computation did not produce a value: a 400 answer,
      a 404 lookup, or an exception that the route turns into a 500. */
  datatype Error = BadRequest(message: string) | Internal(message: string)

  datatype Result<T> = Ok(value: T) | Err(error: Error)

  /** A value held in a Python dictionary built from JSON, a sheet row or a
      request payload. Floats are not modelled. */
  datatype Value =
    | Null
    | Bool(b: bool)
    | Int(i: int)
    | Str(s: string)
    | List(items: seq<Value>)
    | Obj(fields: map<string, Value>)

  type Dict = map<string, Value>

  /** Python truthiness. */
  predicate Truthy(v: Value)
  {
    match v
    case Null => false
    case Bool(b) => b
    case Int(i) => i != 0
    case Str(s) => s != ""
    case List(items) => items != []
    case Obj(fields) => fields != map[]
  }

  /** `d.get(key, default)`. */
  function Get(d: Dict, key: string, default: Value): (r: Value)
    ensures key in d ==> r == d[key]
    ensures key !in d ==> r == default
  {
    if key in d then d[key] else default
  }

  /** Decimal digits of a natural number, most significant first. */
  function NatToString(n: nat): (r: string)
    ensures |r| >= 1
    ensures forall i :: 0 <= i < |r| ==> '0' <= r[i] <= '9'
    decreases n
  {
    if n < 10 then [DigitChar(n)] else NatToString(n / 10) + [DigitChar(n % 10)]
  }

  function DigitChar(d: nat): (c: char)
    requires d < 10
    ensures '0' <= c <= '9'
  {
    ['0', '1', '2', '3', '4', '5', '6', '7', '8', '9'][d]
  }

  /** `str(i)` for an int. */
  function IntToString(i: int): string
  {
    if i < 0 then "-" + NatToString(-i) else NatToString(i)
  }

  /** Three digits, zero-padded. */
  function Pad3(m: nat): (r: string)
    requires m < 1000
  {
    [DigitChar(m / 100), DigitChar(m / 10 % 10), DigitChar(m % 10)]
  }

  /** Digits grouped in threes by commas: `format(n, ',')` for a natural
      number. */
  function Grouped(n: nat): string
    decreases n
  {
    if n < 1000 then NatToString(n) else Grouped(n / 1000) + "," + Pad3(n % 1000)
  }

  /** `format(i, ',')` for an int: a minus sign, then the grouped digits. */
  function FormatThousands(i: int): string
  {
    if i < 0 then "-" + Grouped(-i) else Grouped(i)
  }

  /** `str(v)` for the scalar values; lists and dictionaries are rendered as
      a placeholder. */
  function Show(v: Value): string
  {
    match v
    case Null => "None"
    case Bool(b) => if b then "True" else "False"
    case Int(i) => IntToString(i)
    case Str(s) => s
    case List(_) => "[...]"
    case Obj(_) => "{...}"
  }

  /** `c.lower()` for ASCII letters; every other character is unchanged. */
  function LowerChar(c: char): (r: char)
  {
    if 'A' <= c <= 'Z' then (c as int - 'A' as int + 'a' as int) as char else c
  }

  function Lower(s: string): (r: string)
    ensures |r| == |s|
    ensures forall i :: 0 <= i < |s| ==> r[i] == LowerChar(s[i])
  {
    seq(|s|, i requires 0 <= i < |s| => LowerChar(s[i]))
  }

  /** The characters for which Python's `str.isspace()` holds; `strip()`
      removes exactly these from both ends. */
  predicate IsSpace(c: char)
  {
    ('\t' <= c <= '\r') || ('\U{1C}' <= c <= '\U{1F}') || c == ' ' || c == '\U{85}'
    || c == '\U{A0}' || c == '\U{1680}' || ('\U{2000}' <= c <= '\U{200A}')
    || c == '\U{2028}' || c == '\U{2029}' || c == '\U{202F}' || c == '\U{205F}'
    || c == '\U{3000}'
  }

  function StripLeft(s: string): (r: string)
    ensures |r| <= |s| && r == s[|s| - |r|..]
    ensures r == [] || !IsSpace(r[0])
    ensures forall k :: 0 <= k < |s| - |r| ==> IsSpace(s[k])
  {
    if s != [] && IsSpace(s[0]) then StripLeft(s[1..]) else s
  }

  function StripRight(s: string): (r: string)
    ensures |r| <= |s| && r == s[..|r|]
    ensures r == [] || !IsSpace(r[|r| - 1])
    ensures forall k :: |r| <= k < |s| ==> IsSpace(s[k])
  {
    if s != [] && IsSpace(s[|s| - 1]) then StripRight(s[..|s| - 1]) else s
  }

  /** How many white-space characters `s` starts with. */
  function LeadingSpace(s: string): (n: nat)
    ensures n <= |s|
    ensures forall k :: 0 <= k < n ==> IsSpace(s[k])
    ensures n < |s| ==> !IsSpace(s[n])
  {
    |s| - |StripLeft(s)|
  }

  /** `s.strip()`: exactly the white space at both ends is removed, so the
      result is the piece of `s` that follows the leading white space and is
      followed only by white space, and it neither starts nor ends with
      white space. */
  function Strip(s: string): (r: string)
    ensures LeadingSpace(s) + |r| <= |s| && r == s[LeadingSpace(s)..LeadingSpace(s) + |r|]
    ensures forall k :: LeadingSpace(s) + |r| <= k < |s| ==> IsSpace(s[k])
    ensures r == [] || (!IsSpace(r[0]) && !IsSpace(r[|r| - 1]))
  {
    var left := StripLeft(s);
    var r := StripRight(left);
    PieceOfSuffix(s, |s| - |left|, left, r);
    r
  }

  /** A prefix of a suffix of `s` is a slice of `s`, and what follows the
      prefix in the suffix follows the slice in `s`. */
  lemma PieceOfSuffix(s: string, i: nat, left: string, r: string)
    requires i <= |s| && left == s[i..]
    requires |r| <= |left| && r == left[..|r|]
    requires forall k :: |r| <= k < |left| ==> IsSpace(left[k])
    ensures i + |r| <= |s| && r == s[i..i + |r|]
    ensures forall k :: i + |r| <= k < |s| ==> IsSpace(s[k])
  {
    forall k | i + |r| <= k < |s| ensures IsSpace(s[k]) {
      assert s[k] == left[k - i];
    }
  }

  /** The substring test `needle in hay`. */
  predicate IsSubstring(needle: string, hay: string)
    decreases |hay|
  {
    |needle| <= |hay| && (hay[..|needle|] == needle || IsSubstring(needle, hay[1..]))
  }

  /** `needle in hay` holds exactly when `needle` starts at some position of
      `hay`. */
  lemma {:induction false} SubstringAt(needle: string, hay: string)
    ensures IsSubstring(needle, hay) <==> exists i :: 0 <= i <= |hay| && needle <= hay[i..]
    decreases |hay|
  {
    if hay == [] {
      if needle == [] {
        assert needle <= hay[0..];
      }
    } else if |needle| <= |hay| {
      SubstringAt(needle, hay[1..]);
      if hay[..|needle|] == needle {
        assert needle <= hay[0..];
      } else if IsSubstring(needle, hay[1..]) {
        var j :| 0 <= j <= |hay[1..]| && needle <= hay[1..][j..];
        assert hay[1..][j..] == hay[j + 1..];
      } else {
        forall i | 0 <= i <= |hay| ensures !(needle <= hay[i..]) {
          if i > 0 {
            assert hay[1..][i - 1..] == hay[i..];
          }
        }
      }
    } else {
      forall i | 0 <= i <= |hay| ensures !(needle <= hay[i..]) {
      }
    }
  }

  /** The empty string is in every string, and every string is in itself. */
  lemma SubstringTrivial(s: string)
    ensures IsSubstring("", s) && IsSubstring(s, s)
  {
    assert s[..0] == "";
    assert s[..|s|] == s;
  }

  /** `any(w in s for w in words)`. */
  predicate AnyIn(words: seq<string>, s: string)
  {
    exists w :: w in words && IsSubstring(w, s)
  }

  /** `sep.join(parts)`. */
  function Join(parts: seq<string>, sep: string): (r: string)
    decreases |parts|
  {
    if parts == [] then ""
    else if |parts| == 1 then parts[0]
    else parts[0] + sep + Join(parts[1..], sep)
  }

  /** `s.split(c)` for a one-character separator: the pieces between the
      occurrences of `c`, so there is always at least one piece. */
  function Split(s: string, c: char): (r: seq<string>)
    ensures |r| >= 1
    ensures forall k :: 0 <= k < |r| ==> c !in r[k]
    decreases |s|
  {
    if c !in s then [s]
    else
      var i := IndexOf(s, c);
      [s[..i]] + Split(s[i + 1..], c)
  }

  /** Index of the first occurrence of `c` in `s`. */
  function IndexOf(s: string, c: char): (i: nat)
    requires c in s
    ensures i < |s| && s[i] == c && c !in s[..i]
  {
    if s[0] == c then 0 else 1 + IndexOf(s[1..], c)
  }

  /** Splitting on `c` and joining again with `c` gives the string back. */
  lemma {:induction false} JoinSplit(s: string, c: char)
    ensures Join(Split(s, c), [c]) == s
    decreases |s|
  {
    if c in s {
      var i := IndexOf(s, c);
      var rest := Split(s[i + 1..], c);
      JoinSplit(s[i + 1..], c);
      assert Split(s, c) == [s[..i]] + rest;
      assert s == s[..i] + [c] + s[i + 1..];
    }
  }

  /** Number of occurrences of `c` in `s`. */
  function Occurrences(s: string, c: char): nat
  {
    if s == [] then 0 else (if s[0] == c then 1 else 0) + Occurrences(s[1..], c)
  }

  lemma {:induction false} OccurrencesAppend(a: string, b: string, c: char)
    ensures Occurrences(a + b, c) == Occurrences(a, c) + Occurrences(b, c)
  {
    if a != [] {
      assert (a + b)[0] == a[0];
      assert (a + b)[1..] == a[1..] + b;
      OccurrencesAppend(a[1..], b, c);
    } else {
      assert a + b == b;
    }
  }

  lemma {:induction false} OccurrencesAbsent(s: string, c: char)
    requires c !in s
    ensures Occurrences(s, c) == 0
  {
    if s != [] {
      OccurrencesAbsent(s[1..], c);
    }
  }

  /** Joining pieces that do not contain `c` with `c` puts exactly one `c`
      between each pair of pieces. */
  lemma {:induction false} JoinOccurrences(parts: seq<string>, c: char)
    requires forall k :: 0 <= k < |parts| ==> c !in parts[k]
    ensures Occurrences(Join(parts, [c]), c) == if parts == [] then 0 else |parts| - 1
    decreases |parts|
  {
    if |parts| == 1 {
      OccurrencesAbsent(parts[0], c);
    } else if |parts| > 1 {
      JoinOccurrences(parts[1..], c);
      OccurrencesAbsent(parts[0], c);
      OccurrencesAppend(parts[0], [c], c);
      OccurrencesAppend(parts[0] + [c], Join(parts[1..], [c]), c);
    }
  }

  /** Joining a prefix of the pieces gives a prefix of the joined string. */
  lemma JoinPrefix(parts: seq<string>, n: nat, sep: string)
    requires n <= |parts|
    ensures exists tail :: Join(parts, sep) == Join(parts[..n], sep) + tail
  {
    if n == 0 {
      assert Join(parts, sep) == Join(parts[..0], sep) + Join(parts, sep);
    } else if n == |parts| {
      assert parts[..n] == parts;
      assert Join(parts, sep) == Join(parts[..n], sep) + "";
    } else {
      JoinAt(parts, n, sep);
      assert Join(parts, sep) == Join(parts[..n], sep) + (sep + Join(parts[n..], sep));
    }
  }

  /** Joining splits at any inner boundary between pieces. */
  lemma {:induction false} JoinAt(parts: seq<string>, n: nat, sep: string)
    requires 0 < n < |parts|
    ensures Join(parts, sep) == Join(parts[..n], sep) + sep + Join(parts[n..], sep)
  {
    var rest := Join(parts[1..], sep);
    assert Join(parts, sep) == parts[0] + sep + rest;
    if n == 1 {
      assert parts[..1] == [parts[0]];
      assert parts[1..] == parts[n..];
    } else {
      JoinAt(parts[1..], n - 1, sep);
      assert parts[1..][..n - 1] == parts[..n][1..];
      assert parts[1..][n - 1..] == parts[n..];
      var a, b := Join(parts[..n][1..], sep), Join(parts[n..], sep);
      assert rest == a + sep + b;
      assert Join(parts[..n], sep) == parts[0] + sep + a;
      assert parts[0] + sep + (a + sep + b) == (parts[0] + sep + a) + sep + b;
    }
  }

  /** Python's `a // b` (rounds toward minus infinity). */
  function FloorDiv(a: int, b: int): (q: int)
    requires b != 0
    ensures b > 0 ==> q * b <= a < q * b + b
    ensures b < 0 ==> q * b >= a > q * b + b
  {
    if b > 0 then a / b
    else if a % b == 0 then a / b
    else a / b - 1
  }

  /** Python's normalisation of one slice bound against a length. */
  function SliceBound(i: int, len: nat): (r: nat)
    ensures r <= len
  {
    if i < 0 then (if i + len < 0 then 0 else i + len)
    else if i > len then len
    else i
  }

  /** Python's `s[i:j]` for any integers `i` and `j`. */
  function PySlice<T>(s: seq<T>, i: int, j: int): (r: seq<T>)
    ensures 0 <= i <= j <= |s| ==> r == s[i..j]
    ensures |r| <= |s|
  {
    var a := SliceBound(i, |s|);
    var b := SliceBound(j, |s|);
    if a < b then s[a..b] else []
  }

  predicate Distinct<T(==)>(s: seq<T>)
  {
    forall i, j :: 0 <= i < j < |s| ==> s[i] != s[j]
  }

  /** `sub` is obtained from `s` by deleting entries; order is kept. */
  predicate IsSubsequence<T(==)>(sub: seq<T>, s: seq<T>)
    decreases |s|
  {
    if sub == [] then true
    else if s == [] then false
    else if sub[0] == s[0] then IsSubsequence(sub[1..], s[1..])
    else IsSubsequence(sub, s[1..])
  }

  lemma {:induction false} SubsequenceRefl<T>(s: seq<T>)
    ensures IsSubsequence(s, s)
    decreases |s|
  {
    if s != [] {
      SubsequenceRefl(s[1..]);
    }
  }

  lemma {:induction false} SubsequenceDropFirst<T>(a: seq<T>, b: seq<T>)
    requires a != [] && IsSubsequence(a, b)
    ensures IsSubsequence(a[1..], b)
    decreases |b|, 1
  {
    if a[0] != b[0] {
      SubsequenceDropFirst(a, b[1..]);
      SubsequenceSkip(a[1..], b);
    } else {
      SubsequenceSkip(a[1..], b);
    }
  }

  lemma {:induction false} SubsequenceSkip<T>(a: seq<T>, b: seq<T>)
    requires b != [] && IsSubsequence(a, b[1..])
    ensures IsSubsequence(a, b)
    decreases |b|, 0
  {
    if a != [] && a[0] == b[0] {
      SubsequenceDropFirst(a, b[1..]);
    }
  }

  lemma {:induction false} SubsequenceTrans<T>(a: seq<T>, b: seq<T>, c: seq<T>)
    requires IsSubsequence(a, b) && IsSubsequence(b, c)
    ensures IsSubsequence(a, c)
    decreases |c|
  {
    if a != [] && c != [] {
      if b[0] == c[0] {
        if a[0] == b[0] {
          SubsequenceTrans(a[1..], b[1..], c[1..]);
        } else {
          SubsequenceTrans(a, b[1..], c[1..]);
        }
      } else {
        SubsequenceTrans(a, b, c[1..]);
        SubsequenceSkip(a, c);
      }
    }
  }

  /** The list comprehension `[x for x in s if keep(x)]`. */
  function Filter<T(!new)>(s: seq<T>, keep: T -> bool): (r: seq<T>)
    ensures |r| <= |s|
    ensures forall x :: x in r <==> x in s && keep(x)
    decreases |s|
  {
    if s == [] then []
    else (if keep(s[0]) then [s[0]] else []) + Filter(s[1..], keep)
  }

  /** Appending is associative. */
  lemma AppendAssoc<T>(a: seq<T>, b: seq<T>, c: seq<T>)
    ensures (a + b) + c == a + (b + c)
  {
  }

  /** The comprehension keeps each accepted entry as many times as it
      occurs, and no rejected one. */
  lemma {:induction false} FilterCounts<T(!new)>(s: seq<T>, keep: T -> bool)
    ensures forall x :: multiset(Filter(s, keep))[x] == if keep(x) then multiset(s)[x] else 0
    decreases |s|
  {
    if s != [] {
      FilterCounts(s[1..], keep);
      assert s == [s[0]] + s[1..];
      assert multiset(s) == multiset([s[0]]) + multiset(s[1..]);
      assert Filter(s, keep) == (if keep(s[0]) then [s[0]] else []) + Filter(s[1..], keep);
    }
  }

  lemma {:induction false} FilterIsSubsequence<T(!new)>(s: seq<T>, keep: T -> bool)
    ensures IsSubsequence(Filter(s, keep), s)
    decreases |s|
  {
    if s != [] {
      FilterIsSubsequence(s[1..], keep);
      var f := Filter(s, keep);
      if keep(s[0]) {
        assert f[1..] == Filter(s[1..], keep);
      } else {
        assert f == Filter(s[1..], keep);
        assert f != [] ==> f[0] in f && keep(f[0]);
      }
    }
  }

  lemma {:induction false} FilterAll<T(!new)>(s: seq<T>, keep: T -> bool)
    requires forall x :: x in s ==> keep(x)
    ensures Filter(s, keep) == s
    decreases |s|
  {
    if s != [] {
      FilterAll(s[1..], keep);
    }
  }

  /** Index of the first element satisfying `p`, as `.first()` on a
      filtered query or a linear search returns it. */
  function FirstIndex<T>(s: seq<T>, p: T -> bool): (r: Option<nat>)
    ensures r.Some? ==> r.value < |s| && p(s[r.value]) && forall j :: 0 <= j < r.value ==> !p(s[j])
    ensures r.None? <==> forall j :: 0 <= j < |s| ==> !p(s[j])
  {
    if s == [] then None
    else if p(s[0]) then Some(0)
    else match FirstIndex(s[1..], p)
      case None => None
      case Some(k) => Some(k + 1)
  }

  /** A list comprehension whose condition may raise: the first entry whose
      test raises aborts the whole comprehension. */
  function FilterOrFail<T(!new)>(s: seq<T>, keep: T -> Result<bool>): (r: Result<seq<T>>)
    ensures r.Ok? <==> forall x :: x in s ==> keep(x).Ok?
    ensures r.Ok? ==> |r.value| <= |s|
    ensures r.Ok? ==> forall x :: x in r.value <==> x in s && keep(x) == Ok(true)
    decreases |s|
  {
    if s == [] then Ok([])
    else match keep(s[0])
      case Err(e) => Err(e)
      case Ok(b) =>
        match FilterOrFail(s[1..], keep)
        case Err(e) =>
          assert exists x :: x in s[1..] && keep(x).Err?;
          Err(e)
        case Ok(rest) =>
          assert forall x :: x in s ==> x == s[0] || x in s[1..];
          Ok((if b then [s[0]] else []) + rest)
  }

  lemma {:induction false} FilterOrFailIsSubsequence<T(!new)>(s: seq<T>, keep: T -> Result<bool>)
    requires FilterOrFail(s, keep).Ok?
    ensures IsSubsequence(FilterOrFail(s, keep).value, s)
    decreases |s|
  {
    if s != [] {
      assert s[0] in s;
      assert forall x :: x in s[1..] ==> x in s;
      FilterOrFailIsSubsequence(s[1..], keep);
      var f := FilterOrFail(s, keep).value;
      var rest := FilterOrFail(s[1..], keep).value;
      if keep(s[0]) == Ok(true) {
        assert f == [s[0]] + rest;
        assert f[1..] == rest;
      } else {
        assert f == rest;
        SubsequenceSkip(f, s);
      }
    }
  }

  /** On success, each accepted entry is kept as many times as it occurs,
      and no rejected one. */
  lemma {:induction false} FilterOrFailCounts<T(!new)>(s: seq<T>, keep: T -> Result<bool>)
    requires FilterOrFail(s, keep).Ok?
    ensures forall x :: multiset(FilterOrFail(s, keep).value)[x] == if keep(x) == Ok(true) then multiset(s)[x] else 0
    decreases |s|
  {
    if s != [] {
      FilterOrFailStep(s, keep);
      FilterOrFailCounts(s[1..], keep);
      CountsCons(s, keep, FilterOrFail(s, keep).value, FilterOrFail(s[1..], keep).value);
    }
  }

  /** Counting after one more entry: the first entry's verdict followed by
      the kept rest keeps each accepted entry of the whole list as many
      times as it occurs. */
  lemma CountsCons<T(!new)>(s: seq<T>, keep: T -> Result<bool>, f: seq<T>, rest: seq<T>)
    requires s != []
    requires f == (if keep(s[0]) == Ok(true) then [s[0]] else []) + rest
    requires forall x :: multiset(rest)[x] == if keep(x) == Ok(true) then multiset(s[1..])[x] else 0
    ensures forall x :: multiset(f)[x] == if keep(x) == Ok(true) then multiset(s)[x] else 0
  {
    assert s == [s[0]] + s[1..];
    assert multiset(s) == multiset{s[0]} + multiset(s[1..]);
  }

  /** A successful comprehension over a non-empty list is its first
      entry's verdict followed by the comprehension of the rest. */
  lemma FilterOrFailStep<T(!new)>(s: seq<T>, keep: T -> Result<bool>)
    requires s != [] && FilterOrFail(s, keep).Ok?
    ensures keep(s[0]).Ok? && FilterOrFail(s[1..], keep).Ok?
    ensures forall x :: x in s[1..] ==> x in s
    ensures FilterOrFail(s, keep).value
            == (if keep(s[0]) == Ok(true) then [s[0]] else []) + FilterOrFail(s[1..], keep).value
  {
  }

  /** A comprehension whose test accepts every entry keeps the list as is. */
  lemma {:induction false} FilterOrFailAll<T(!new)>(s: seq<T>, keep: T -> Result<bool>)
    requires forall x :: x in s ==> keep(x) == Ok(true)
    ensures FilterOrFail(s, keep) == Ok(s)
    decreases |s|
  {
    if s != [] {
      assert forall x :: x in s[1..] ==> x in s;
      FilterOrFailAll(s[1..], keep);
      assert s == [s[0]] + s[1..];
    }
  }

  // Python's `int(str)`.

  predicate IsDigit(c: char)
  {
    '0' <= c <= '9'
  }

  /** The digit part `int()` accepts: ASCII digits, with single underscores
      allowed between two digits. */
  predicate WellFormedDigits(s: string)
  {
    && |s| > 0
    && IsDigit(s[0])
    && IsDigit(s[|s| - 1])
    && (forall i :: 0 <= i < |s| ==> IsDigit(s[i]) || s[i] == '_')
    && (forall i :: 0 <= i < |s| - 1 ==> s[i] == '_' ==> s[i + 1] != '_')
  }

  /** The number written by digits and underscores; underscores are ignored. */
  function DigitsValue(s: string): nat
    requires forall i :: 0 <= i < |s| ==> IsDigit(s[i]) || s[i] == '_'
  {
    if s == [] then 0
    else if s[|s| - 1] == '_' then DigitsValue(s[..|s| - 1])
    else
      assert IsDigit(s[|s| - 1]);
      DigitsValue(s[..|s| - 1]) * 10 + (s[|s| - 1] as int - '0' as int)
  }

  /** `int(s)`: surrounding white space is ignored, one optional sign, then
      well-formed digits; anything else is a `ValueError` (`None` here). */
  function PyInt(s: string): (r: Option<int>)
    ensures Strip(s) == [] ==> r.None?
    ensures r.Some? && r.value < 0 ==> Strip(s)[0] == '-'
  {
    var t := Strip(s);
    var signed := |t| > 0 && (t[0] == '+' || t[0] == '-');
    var digits := if signed then t[1..] else t;
    if !WellFormedDigits(digits) then None
    else Some(if signed && t[0] == '-' then -(DigitsValue(digits) as int) else DigitsValue(digits))
  }

  predicate AllDigits(s: string)
  {
    forall i :: 0 <= i < |s| ==> IsDigit(s[i])
  }

  lemma DigitCharValue(d: nat)
    requires d < 10
    ensures DigitChar(d) as int - '0' as int == d
  {
  }

  lemma {:induction false} NatDigitsValue(n: nat)
    ensures WellFormedDigits(NatToString(n))
    ensures DigitsValue(NatToString(n)) == n
    decreases n
  {
    var s := NatToString(n);
    if n < 10 {
      DigitCharValue(n);
    } else {
      NatDigitsValue(n / 10);
      DigitCharValue(n % 10);
      assert s[..|s| - 1] == NatToString(n / 10);
    }
  }

  lemma StripPlain(s: string)
    requires |s| > 0 && IsDigit(s[|s| - 1]) && (IsDigit(s[0]) || s[0] == '-')
    ensures Strip(s) == s
  {
    assert !IsSpace(s[0]) && !IsSpace(s[|s| - 1]);
    assert StripLeft(s) == s;
  }

  /** `int()` reads well-formed digits, with or without a minus sign. */
  lemma PyIntDigits(t: string)
    requires WellFormedDigits(t)
    ensures PyInt(t) == Some(DigitsValue(t))
    ensures PyInt("-" + t) == Some(-(DigitsValue(t) as int))
  {
    PyIntUnsigned(t);
    PyIntNegative(t);
  }

  lemma PyIntUnsigned(t: string)
    requires WellFormedDigits(t)
    ensures PyInt(t) == Some(DigitsValue(t))
  {
    StripPlain(t);
  }

  lemma PyIntNegative(t: string)
    requires WellFormedDigits(t)
    ensures PyInt("-" + t) == Some(-(DigitsValue(t) as int))
  {
    var m := "-" + t;
    assert m[1..] == t && m[|m| - 1] == t[|t| - 1];
    StripPlain(m);
  }

  /** A non-empty run of digits reads back as its value. */
  lemma PyIntAllDigits(t: string)
    requires |t| > 0 && AllDigits(t)
    ensures PyInt(t) == Some(DigitsValue(t))
  {
    assert WellFormedDigits(t);
    PyIntDigits(t);
  }

  /** `int(str(i)) == i` for every int. */
  lemma PyIntOfShown(i: int)
    ensures PyInt(IntToString(i)) == Some(i)
  {
    var n: nat := if i < 0 then -i else i;
    NatDigitsValue(n);
    PyIntDigits(NatToString(n));
  }

  lemma DigitsValueSnoc(x: string, c: char)
    requires forall i :: 0 <= i < |x| ==> IsDigit(x[i]) || x[i] == '_'
    requires IsDigit(c)
    ensures DigitsValue(x + [c]) == DigitsValue(x) * 10 + (c as int - '0' as int)
  {
    assert (x + [c])[..|x|] == x;
  }
}
