/** The few JavaScript built-ins the viewer relies on, stated on Dafny values:
    `Array.prototype.find`, `.filter(Boolean)` over optional values,
    `Array.prototype.join`, `String.prototype.includes`, `split("/")[1]`,
    the decimal rendering of a status code, and `||` on strings. */
module JsSemantics {
  import opened Wrappers

  // ---------------------------------------------------------------------------
  // Array.prototype.find (returning the index of the element it finds)

  /** `i` is the first position of `s` whose element satisfies `p`. */
  ghost predicate IsFirstWhere<T>(s: seq<T>, i: int, p: T -> bool) {
    0 <= i < |s| && p(s[i]) && forall j :: 0 <= j < i ==> !p(s[j])
  }

  /** No element of `s` satisfies `p`. */
  ghost predicate NoneWhere<T>(s: seq<T>, p: T -> bool) {
    forall j :: 0 <= j < |s| ==> !p(s[j])
  }

  /** The index of the first element of `s` that satisfies `p`, as `find` scans. */
  function Find<T>(s: seq<T>, p: T -> bool): (r: Option<nat>)
    ensures r.Some? ==> IsFirstWhere(s, r.value, p)
    ensures r.None? ==> NoneWhere(s, p)
  {
    if s == [] then None
    else if p(s[0]) then Some(0)
    else
      match Find(s[1..], p)
      case None => None
      case Some(i) => Some(i + 1)
  }

  /** The first match is unique: any index that is a first match is the one `Find` returns. */
  lemma FindIsFirst<T>(s: seq<T>, p: T -> bool, i: int)
    requires IsFirstWhere(s, i, p)
    ensures Find(s, p) == Some(i)
  {
  }

  // ---------------------------------------------------------------------------
  // .filter(Boolean) over the results of a lookup that may find nothing

  /** The present values of `s`, in order. */
  function Somes<T>(s: seq<Option<T>>): (r: seq<T>)
    ensures |r| <= |s|
  {
    if s == [] then []
    else if s[0].Some? then [s[0].value] + Somes(s[1..])
    else Somes(s[1..])
  }

  /** Dropping absent values distributes over concatenation, so order is preserved. */
  lemma {:induction false} SomesAppend<T>(a: seq<Option<T>>, b: seq<Option<T>>)
    ensures Somes(a + b) == Somes(a) + Somes(b)
  {
    if a == [] {
      assert a + b == b;
    } else {
      assert (a + b)[1..] == a[1..] + b;
      SomesAppend(a[1..], b);
    }
  }

  /** Nothing is dropped exactly when every value is present; then the result is
      the values themselves, position by position. */
  lemma {:induction false} SomesAllPresent<T>(s: seq<Option<T>>)
    ensures |Somes(s)| == |s| <==> forall k :: 0 <= k < |s| ==> s[k].Some?
    ensures (forall k :: 0 <= k < |s| ==> s[k].Some?) ==>
              forall k :: 0 <= k < |s| ==> Somes(s)[k] == s[k].value
  {
    if s != [] {
      SomesAllPresent(s[1..]);
      if s[0].None? {
        assert |Somes(s)| < |s|;
      } else {
        forall k | 1 <= k < |s| ensures s[k] == s[1..][k - 1] { }
      }
    }
  }

  /** A value is in the result exactly when it is present somewhere in the input. */
  lemma {:induction false} SomesMembership<T>(s: seq<Option<T>>, x: T)
    ensures x in Somes(s) <==> Some(x) in s
  {
    if s != [] {
      SomesMembership(s[1..], x);
      assert s == [s[0]] + s[1..];
    }
  }

  // ---------------------------------------------------------------------------
  // Array.prototype.join

  /** The parts joined with `sep` between consecutive ones. */
  function Join(parts: seq<string>, sep: string): (r: string)
    ensures parts == [] ==> r == ""
    ensures |parts| == 1 ==> r == parts[0]
    ensures |parts| > 0 ==> parts[0] <= r
  {
    if parts == [] then ""
    else if |parts| == 1 then parts[0]
    else parts[0] + sep + Join(parts[1..], sep)
  }

  /** `join` puts `sep` between every pair of consecutive parts: joining two
      non-empty lists is joining each and putting `sep` between the two. */
  lemma {:induction false} JoinConcat(a: seq<string>, b: seq<string>, sep: string)
    requires a != [] && b != []
    ensures Join(a + b, sep) == Join(a, sep) + sep + Join(b, sep)
  {
    var ab := a + b;
    assert |ab| > 1 && ab[0] == a[0];
    assert Join(ab, sep) == a[0] + sep + Join(ab[1..], sep);
    if |a| == 1 {
      assert ab[1..] == b;
    } else {
      assert ab[1..] == a[1..] + b;
      JoinConcat(a[1..], b, sep);
      assert Join(a, sep) == a[0] + sep + Join(a[1..], sep);
    }
  }

  // ---------------------------------------------------------------------------
  // String.prototype.includes

  /** `text.includes(pat)`: some suffix of `text` starts with `pat`. */
  predicate Includes(text: string, pat: string)
    decreases |text|
  {
    pat <= text || (|text| > 0 && Includes(text[1..], pat))
  }

  /** `includes` is substring containment: `pat` occurs at some offset of `text`. */
  lemma {:induction false} IncludesIff(text: string, pat: string)
    ensures Includes(text, pat) <==> exists i :: 0 <= i <= |text| && pat <= text[i..]
  {
    if pat <= text {
      assert text[0..] == text;
    } else if |text| == 0 {
      forall i | 0 <= i <= |text| ensures !(pat <= text[i..]) {
        assert text[i..] == text;
      }
    } else {
      IncludesIff(text[1..], pat);
      if Includes(text[1..], pat) {
        var i :| 0 <= i <= |text[1..]| && pat <= text[1..][i..];
        assert text[1..][i..] == text[i + 1..];
      } else {
        forall i | 0 <= i <= |text| ensures !(pat <= text[i..]) {
          if i > 0 {
            assert text[1..][i - 1..] == text[i..];
          } else {
            assert text[i..] == text;
          }
        }
      }
    }
  }

  /** For a one-character pattern, `includes` is membership. */
  lemma {:induction false} IncludesChar(text: string, c: char)
    ensures Includes(text, [c]) <==> c in text
  {
    if text != [] {
      IncludesChar(text[1..], c);
      assert text == [text[0]] + text[1..];
    }
  }

  /** The empty string is included in every string. */
  lemma IncludesEmpty(text: string)
    ensures Includes(text, "")
  {
  }

  // ---------------------------------------------------------------------------
  // reference.split("/")[1]

  /** The text `includes` searches for when it is handed `undefined`. */
  const Undefined: string := "undefined"

  /** `s.split("/")[1]` given to `includes`: the text between the first and the
      second `/` (or the end), or `"undefined"` when `s` has no `/` at all. */
  function SecondSegment(s: string): (r: string)
    ensures '/' !in s ==> r == Undefined
    ensures r == Undefined || '/' !in r
  {
    match Find(s, (c: char) => c == '/')
    case None => Undefined
    case Some(i) =>
      var rest := s[i + 1..];
      match Find(rest, (c: char) => c == '/')
      case None => rest
      case Some(j) => rest[..j]
  }

  /** A reference written `Type/id` (neither part holding a `/`) yields `id`. */
  lemma SecondSegmentOfTypedId(ty: string, id: string)
    requires '/' !in ty && '/' !in id
    ensures SecondSegment(ty + "/" + id) == id
  {
    var s := ty + "/" + id;
    FindIsFirst(s, (c: char) => c == '/', |ty|);
    assert s[|ty| + 1..] == id;
  }

  /** A reference `Type/id/...` with more segments still yields `id`. */
  lemma SecondSegmentOfLongerPath(ty: string, id: string, more: string)
    requires '/' !in ty && '/' !in id
    ensures SecondSegment(ty + "/" + id + "/" + more) == id
  {
    var s := ty + "/" + id + "/" + more;
    FindIsFirst(s, (c: char) => c == '/', |ty|);
    var rest := s[|ty| + 1..];
    assert rest == id + "/" + more;
    FindIsFirst(rest, (c: char) => c == '/', |id|);
  }

  // ---------------------------------------------------------------------------
  // `${n}` for a non-negative integer

  function DigitChar(d: nat): (c: char)
    requires d < 10
    ensures '0' <= c <= '9'
  {
    "0123456789"[d]
  }

  function DigitValue(c: char): (d: nat)
    requires '0' <= c <= '9'
    ensures d < 10
  {
    (c as int - '0' as int) as nat
  }

  predicate AllDigits(s: string) {
    forall k :: 0 <= k < |s| ==> '0' <= s[k] <= '9'
  }

  /** The decimal numeral of `n`, as a template literal renders a number. */
  function DecimalString(n: nat): (r: string)
    ensures |r| > 0 && AllDigits(r)
    ensures |r| > 1 ==> r[0] != '0'
    decreases n
  {
    if n < 10 then [DigitChar(n)] else DecimalString(n / 10) + [DigitChar(n % 10)]
  }

  /** The number a string of decimal digits denotes. */
  function DecimalValue(s: string): nat
    requires AllDigits(s)
  {
    if s == [] then 0 else 10 * DecimalValue(s[..|s| - 1]) + DigitValue(s[|s| - 1])
  }

  /** Reading the numeral back gives the number: the rendering loses nothing. */
  lemma {:induction false} DecimalRoundTrip(n: nat)
    ensures DecimalValue(DecimalString(n)) == n
    decreases n
  {
    var s := DecimalString(n);
    if n >= 10 {
      DecimalRoundTrip(n / 10);
      assert s[..|s| - 1] == DecimalString(n / 10);
    }
  }

  // ---------------------------------------------------------------------------
  // `x || fallback` and truthiness for an optional string

  /** A JavaScript string value is truthy when present and non-empty. */
  predicate HasText(s: Option<string>) {
    s.Some? && s.value != ""
  }

  /** `s || fallback`: the string when it is truthy, the fallback otherwise. */
  function OrElse(s: Option<string>, fallback: string): (r: string)
    ensures HasText(s) ==> r == s.value
    ensures !HasText(s) ==> r == fallback
  {
    if s.Some? && s.value != "" then s.value else fallback
  }

  /** `arr?.[0]`: the first element, or nothing when the array is absent or empty. */
  function FirstOf<T>(arr: Option<seq<T>>): (r: Option<T>)
    ensures r.Some? <==> arr.Some? && |arr.value| > 0
    ensures r.Some? ==> r.value == arr.value[0]
  {
    if arr.Some? && |arr.value| > 0 then Some(arr.value[0]) else None
  }
}
