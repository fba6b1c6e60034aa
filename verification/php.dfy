/** The parts of PHP's run-time behaviour that the ORM core relies on:
    dynamically typed values, `isset` and `empty`, `substr` trimming, string
    joining and the conversion of integers to decimal text. */
module Php {

  datatype Option<+T> = None | Some(value: T)

  /** A PHP value as the ORM sees it. An array is modelled as a map from key
      to value: its order only ever reaches `serialize`, which is an
      uninterpreted collaborator here. `Date` is a `DateTime` object whose
      moment is opaque to the core. */
  datatype Value =
    | Null
    | Bool(b: bool)
    | Int(i: int)
    | Str(s: string)
    | Date(instant: int)
    | Arr(items: map<string, Value>)

  /** `isset($a[$k])`: the key is present and its value is not null. */
  predicate IsSet(a: map<string, Value>, k: string)
  {
    k in a && a[k] != Null
  }

  /** `empty($s)` for a value that is a string or null: null, `''` and `'0'`
      are all empty. */
  predicate EmptyText(s: Option<string>)
  {
    s == None || s == Some("") || s == Some("0")
  }

  /** `$a[$k]` on an array that may lack the key: PHP yields null (with a
      notice). */
  function PropOrNull(a: map<string, Value>, k: string): Value
  {
    if k in a then a[k] else Null
  }

  /** `substr($s, 0, -n)`: everything but the last `n` characters; nothing
      is left when the string is shorter than that. */
  function DropLast(s: string, n: nat): string
  {
    if |s| >= n then s[..|s| - n] else ""
  }

  /** `substr($s, n)`: everything from position `n` on. */
  function DropFirst(s: string, n: nat): string
  {
    if |s| >= n then s[n..] else ""
  }

  /** `implode(sep, xs)`. */
  function Join(xs: seq<string>, sep: string): string
  {
    if |xs| == 0 then ""
    else if |xs| == 1 then xs[0]
    else Join(xs[..|xs| - 1], sep) + sep + xs[|xs| - 1]
  }

  /** Each element followed by `sep`: what a loop doing `$s .= x . sep`
      leaves behind. */
  function Terminated(xs: seq<string>, sep: string): string
  {
    if xs == [] then "" else Terminated(xs[..|xs| - 1], sep) + xs[|xs| - 1] + sep
  }

  /** Each element preceded by `sep`: what a loop doing `$s .= sep . x`
      leaves behind. */
  function Prefixed(xs: seq<string>, sep: string): string
  {
    if xs == [] then "" else Prefixed(xs[..|xs| - 1], sep) + sep + xs[|xs| - 1]
  }

  /** The texts of the elements, one after another. */
  function ConcatMap<T>(xs: seq<T>, f: T -> string): string
  {
    if xs == [] then "" else ConcatMap(xs[..|xs| - 1], f) + f(xs[|xs| - 1])
  }

  lemma ConcatMapSnoc<T>(xs: seq<T>, x: T, f: T -> string)
    ensures ConcatMap(xs + [x], f) == ConcatMap(xs, f) + f(x)
  {
    assert (xs + [x])[..|xs|] == xs;
  }

  /** Appending elements appends their texts and leaves the earlier text
      as it was. */
  lemma {:induction false} ConcatMapAppend<T>(xs: seq<T>, ys: seq<T>, f: T -> string)
    ensures ConcatMap(xs + ys, f) == ConcatMap(xs, f) + ConcatMap(ys, f)
    decreases |ys|
  {
    if ys == [] {
      assert xs + ys == xs;
    } else {
      var init := ys[..|ys| - 1];
      var last := ys[|ys| - 1];
      assert ys == init + [last];
      assert xs + ys == (xs + init) + [last];
      ConcatMapAppend(xs, init, f);
      ConcatMapSnoc(xs + init, last, f);
      ConcatMapSnoc(init, last, f);
    }
  }

  lemma TerminatedSnoc(xs: seq<string>, x: string, sep: string)
    ensures Terminated(xs + [x], sep) == Terminated(xs, sep) + x + sep
  {
    assert (xs + [x])[..|xs|] == xs;
  }

  lemma PrefixedSnoc(xs: seq<string>, x: string, sep: string)
    ensures Prefixed(xs + [x], sep) == Prefixed(xs, sep) + sep + x
  {
    assert (xs + [x])[..|xs|] == xs;
  }

  /** A terminated list is the joined list plus one trailing separator. */
  lemma {:induction false} TerminatedIsJoinThenSep(xs: seq<string>, sep: string)
    requires xs != []
    ensures Terminated(xs, sep) == Join(xs, sep) + sep
  {
    if |xs| == 1 {
      assert xs[..0] == [];
    } else {
      TerminatedIsJoinThenSep(xs[..|xs| - 1], sep);
    }
  }

  /** A prefixed list is one leading separator plus the joined list. */
  lemma {:induction false} PrefixedIsSepThenJoin(xs: seq<string>, sep: string)
    requires xs != []
    ensures Prefixed(xs, sep) == sep + Join(xs, sep)
  {
    if |xs| == 1 {
      assert xs[..0] == [];
    } else {
      PrefixedIsSepThenJoin(xs[..|xs| - 1], sep);
    }
  }

  lemma {:induction false} PrefixedAppend(xs: seq<string>, ys: seq<string>, sep: string)
    ensures Prefixed(xs + ys, sep) == Prefixed(xs, sep) + Prefixed(ys, sep)
    decreases |ys|
  {
    if ys == [] {
      assert xs + ys == xs;
    } else {
      var init := ys[..|ys| - 1];
      var last := ys[|ys| - 1];
      assert ys == init + [last];
      assert xs + ys == (xs + init) + [last];
      PrefixedSnoc(xs + init, last, sep);
      PrefixedAppend(xs, init, sep);
      PrefixedSnoc(init, last, sep);
    }
  }

  /** Trimming the end of `a + b` only touches `b` when `b` is long enough. */
  lemma DropLastAppend(a: string, b: string, n: nat)
    requires |b| >= n
    ensures DropLast(a + b, n) == a + DropLast(b, n)
  {
    assert (a + b)[..|a + b| - n] == a + b[..|b| - n];
  }

  /** Trimming past a suffix removes the suffix and then `k` more
      characters. */
  lemma DropLastPastSuffix(x: string, suffix: string, k: nat)
    requires |x| >= k
    ensures DropLast(x + suffix, |suffix| + k) == DropLast(x, k)
  {
    assert (x + suffix)[..|x + suffix| - (|suffix| + k)] == x[..|x| - k];
  }

  /** Trimming a terminated list by its separator plus `k` characters
      leaves the joined list less `k` characters. */
  lemma TrimTerminated(pre: string, xs: seq<string>, sep: string, k: nat)
    requires xs != [] && |Join(xs, sep)| >= k
    ensures DropLast(pre + Terminated(xs, sep), |sep| + k) == pre + DropLast(Join(xs, sep), k)
  {
    var j := Join(xs, sep);
    TerminatedIsJoinThenSep(xs, sep);
    assert pre + Terminated(xs, sep) == (pre + j) + sep;
    DropLastPastSuffix(pre + j, sep, k);
    DropLastAppend(pre, j, k);
  }

  lemma Assoc(a: string, b: string, c: string)
    ensures (a + b) + c == a + (b + c)
  {
  }

  function DigitChar(d: nat): (c: char)
    requires d < 10
    ensures '0' <= c <= '9'
  {
    ('0' as int + d) as char
  }

  function DigitValue(c: char): int
  {
    c as int - '0' as int
  }

  /** PHP's string form of a non-negative integer. */
  function NatToString(n: nat): (s: string)
    ensures |s| >= 1
    ensures forall i :: 0 <= i < |s| ==> '0' <= s[i] <= '9'
    ensures s[0] == '0' ==> n == 0
    decreases n
  {
    if n < 10 then [DigitChar(n)] else NatToString(n / 10) + [DigitChar(n % 10)]
  }

  /** Reads a run of decimal digits back as a number. */
  function ParseNat(s: string): int
  {
    if s == [] then 0 else ParseNat(s[..|s| - 1]) * 10 + DigitValue(s[|s| - 1])
  }

  lemma {:induction false} NatToStringRoundTrip(n: nat)
    ensures ParseNat(NatToString(n)) == n
    decreases n
  {
    var s := NatToString(n);
    if n < 10 {
      assert s[..0] == [];
    } else {
      NatToStringRoundTrip(n / 10);
      assert s[..|s| - 1] == NatToString(n / 10);
    }
  }

  /** PHP's string form of an integer. */
  function IntToString(i: int): string
  {
    if i < 0 then "-" + NatToString(-i) else NatToString(i)
  }

  /** The text a value becomes when PHP interpolates it into a string:
      null and false become `''`, true `'1'`, an array `'Array'`. A
      `DateTime` cannot be converted (PHP raises an error); it is given
      the empty text here. */
  function Interpolate(v: Value): string
  {
    match v
    case Null => ""
    case Bool(b) => if b then "1" else ""
    case Int(i) => IntToString(i)
    case Str(s) => s
    case Date(_) => ""
    case Arr(_) => "Array"
  }
}
