/**
 * The few string operations of Go's `strconv` and `strings` packages that the
 * export and import code relies on, on `seq<char>`.
 */
module Strings {

  /** The ASCII digit for `d`. */
  function DigitChar(d: nat): (c: char)
    requires d < 10
    ensures '0' <= c <= '9'
  {
    (48 + d) as char
  }

  /** `strconv.Itoa` on a non-negative integer: its shortest decimal form. */
  function Itoa(n: nat): (s: string)
    ensures |s| >= 1
    ensures forall i :: 0 <= i < |s| ==> '0' <= s[i] <= '9'
    ensures (n < 10) == (|s| == 1)
  {
    if n < 10 then [DigitChar(n)] else Itoa(n / 10) + [DigitChar(n % 10)]
  }

  /** Distinct numbers have distinct decimal forms, so keys built from indices never collide. */
  lemma {:induction false} ItoaInjective(a: nat, b: nat)
    requires Itoa(a) == Itoa(b)
    ensures a == b
  {
    if a >= 10 && b >= 10 {
      var sa, sb := Itoa(a / 10), Itoa(b / 10);
      assert Itoa(a) == sa + [DigitChar(a % 10)];
      assert Itoa(b) == sb + [DigitChar(b % 10)];
      assert |sa| == |sb|;
      assert sa == Itoa(a)[..|sa|] == Itoa(b)[..|sb|] == sb;
      assert DigitChar(a % 10) == Itoa(a)[|sa|] == Itoa(b)[|sb|] == DigitChar(b % 10);
      ItoaInjective(a / 10, b / 10);
    } else if a < 10 && b < 10 {
      assert Itoa(a)[0] == DigitChar(a);
      assert Itoa(b)[0] == DigitChar(b);
    }
  }

  /**
   * `unicode.ToUpper` on the characters whose upper-case form is an ASCII
   * letter: `a`-`z`, the dotless `ı` (U+0131, upper-case `I`) and the long
   * `ſ` (U+017F, upper-case `S`); every other character is kept.
   */
  function UpperChar(c: char): (u: char)
    ensures 'a' <= c <= 'z' ==> u as int == c as int - 32
    ensures c == '\U{0131}' ==> u == 'I'
    ensures c == '\U{017F}' ==> u == 'S'
    ensures !('a' <= c <= 'z' || c == '\U{0131}' || c == '\U{017F}') ==> u == c
    ensures 'A' <= u <= 'Z' <==> 'A' <= c <= 'Z' || 'a' <= c <= 'z' || c == '\U{0131}' || c == '\U{017F}'
  {
    if 'a' <= c <= 'z' then (c as int - 32) as char
    else if c == '\U{0131}' then 'I'
    else if c == '\U{017F}' then 'S'
    else c
  }

  function ToUpper(s: string): (r: string)
    ensures |r| == |s|
    ensures forall i :: 0 <= i < |s| ==> r[i] == UpperChar(s[i])
  {
    if s == [] then [] else [UpperChar(s[0])] + ToUpper(s[1..])
  }

  /** A string without the characters `UpperChar` changes is its own upper-case form. */
  lemma UpperFixed(s: string)
    requires forall i :: 0 <= i < |s| ==> !('a' <= s[i] <= 'z' || s[i] == '\U{0131}' || s[i] == '\U{017F}')
    ensures ToUpper(s) == s
  {
  }

  /** Upper-casing twice is upper-casing once. */
  lemma ToUpperIdempotent(s: string)
    ensures ToUpper(ToUpper(s)) == ToUpper(s)
  {
    UpperFixed(ToUpper(s));
  }

  /**
   * The part of `s` before the first `c` (all of `s` when `c` does not occur):
   * the first element of Go's `strings.Split(s, string(c))`.
   */
  function BeforeFirst(s: string, c: char): (r: string)
    ensures r <= s && c !in r
    ensures c in s ==> |r| < |s| && s[|r|] == c
    ensures c !in s ==> r == s
  {
    if s == [] then []
    else if s[0] == c then []
    else [s[0]] + BeforeFirst(s[1..], c)
  }

  /** Go's `strings.Split(s, string(sep))`: the pieces between separators, empty pieces included. */
  function Split(s: string, sep: char): (parts: seq<string>)
    ensures |parts| >= 1
    ensures forall i :: 0 <= i < |parts| ==> sep !in parts[i]
    decreases |s|
  {
    var head := BeforeFirst(s, sep);
    if |head| == |s| then [s] else [head] + Split(s[|head| + 1..], sep)
  }

  /** Go's `strings.Join(parts, string(sep))`: the inverse of `Split`. */
  function Join(parts: seq<string>, sep: char): string
    requires |parts| >= 1
  {
    if |parts| == 1 then parts[0] else parts[0] + [sep] + Join(parts[1..], sep)
  }

  /** Splitting loses nothing: joining the pieces gives the input back. */
  lemma {:induction false} JoinSplit(s: string, sep: char)
    ensures Join(Split(s, sep), sep) == s
    decreases |s|
  {
    var head := BeforeFirst(s, sep);
    if |head| < |s| {
      var rest := s[|head| + 1..];
      JoinSplit(rest, sep);
      SplitFirst(s, sep);
      JoinCons(head, Split(rest, sep), sep);
    }
  }

  /** A separator in `s` splits it into the piece before it and the split of the rest. */
  lemma SplitFirst(s: string, sep: char)
    requires |BeforeFirst(s, sep)| < |s|
    ensures var head := BeforeFirst(s, sep);
      && Split(s, sep) == [head] + Split(s[|head| + 1..], sep)
      && s == head + [sep] + s[|head| + 1..]
  {
    var head := BeforeFirst(s, sep);
    assert s[|head|] == sep by { assert sep in s; }
    assert head == s[..|head|];
    Around(s, |head|);
  }

  /** A sequence is its prefix, the element at `k` and its suffix. */
  lemma Around<T>(s: seq<T>, k: nat)
    requires k < |s|
    ensures s == s[..k] + [s[k]] + s[k + 1..]
  {
  }

  /** The prefix of a sequence as long as the sequence is the sequence. */
  lemma TakeAll<T>(s: seq<T>)
    ensures s[..|s|] == s
  {
  }

  /** A sequence is its prefix up to `i` followed by the rest. */
  lemma SplitAt<T>(s: seq<T>, i: nat)
    requires i <= |s|
    ensures s[..i] + s[i..] == s
  {
  }

  /** The prefixes of a sequence nest. */
  lemma TakeTake<T>(s: seq<T>, i: nat, j: nat)
    requires i <= j <= |s|
    ensures s[..j][..i] == s[..i]
  {
  }

  /** Appending leaves the old elements as a prefix. */
  lemma TakeSnoc<T>(s: seq<T>, x: T)
    ensures (s + [x])[..|s|] == s
  {
  }

  /** A non-empty sequence is its prefix followed by its last element. */
  lemma InitLast<T>(s: seq<T>)
    requires s != []
    ensures s[..|s| - 1] + [s[|s| - 1]] == s
  {
  }

  /** Joining a piece in front of other pieces puts one separator between them. */
  lemma JoinCons(head: string, parts: seq<string>, sep: char)
    requires |parts| >= 1
    ensures Join([head] + parts, sep) == head + [sep] + Join(parts, sep)
  {
    assert ([head] + parts)[0] == head && ([head] + parts)[1..] == parts;
  }

  /** Pieces free of the separator split back into themselves. */
  lemma {:induction false} SplitJoin(parts: seq<string>, sep: char)
    requires |parts| >= 1
    requires forall i :: 0 <= i < |parts| ==> sep !in parts[i]
    ensures Split(Join(parts, sep), sep) == parts
  {
    if |parts| == 1 {
      assert Join(parts, sep) == parts[0];
    } else {
      var s := Join(parts, sep);
      var rest := Join(parts[1..], sep);
      assert s == parts[0] + ([sep] + rest);
      BeforeFirstOfConcat(parts[0], sep, rest);
      assert s[|parts[0]| + 1..] == rest;
      SplitJoin(parts[1..], sep);
    }
  }

  lemma {:induction false} BeforeFirstOfConcat(a: string, sep: char, b: string)
    requires sep !in a
    ensures BeforeFirst(a + ([sep] + b), sep) == a
  {
    if a != [] {
      assert (a + ([sep] + b))[1..] == a[1..] + ([sep] + b);
      BeforeFirstOfConcat(a[1..], sep, b);
    }
  }

  /**
   * The order of `sort.Strings`, which `json.Marshal` uses for map keys:
   * lexicographic on characters. On code points it is the order of their
   * UTF-8 bytes.
   */
  predicate Less(a: string, b: string)
  {
    if a == [] then b != []
    else if b == [] then false
    else a[0] < b[0] || (a[0] == b[0] && Less(a[1..], b[1..]))
  }

  lemma {:induction false} LessIrreflexive(a: string)
    ensures !Less(a, a)
  {
    if a != [] {
      LessIrreflexive(a[1..]);
    }
  }

  lemma {:induction false} LessTransitive(a: string, b: string, c: string)
    requires Less(a, b) && Less(b, c)
    ensures Less(a, c)
  {
    if a != [] && b != [] && c != [] && a[0] == b[0] == c[0] {
      LessTransitive(a[1..], b[1..], c[1..]);
    }
  }

  lemma {:induction false} LessTotal(a: string, b: string)
    ensures a == b || Less(a, b) || Less(b, a)
  {
    if a != [] && b != [] && a[0] == b[0] {
      LessTotal(a[1..], b[1..]);
      if a[1..] == b[1..] {
        assert a == [a[0]] + a[1..] && b == [b[0]] + b[1..];
      }
    }
  }

  /** No two strings precede each other. */
  lemma LessAsymmetric()
    ensures forall a, b :: Less(a, b) ==> !Less(b, a)
  {
    forall a, b | Less(a, b) && Less(b, a)
      ensures false
    {
      LessTransitive(a, b, a);
      LessIrreflexive(a);
    }
  }

  /** Every finite non-empty set of strings has a last element in that order. */
  lemma {:induction false} GreatestExists(keys: set<string>)
    requires keys != {}
    ensures exists g :: g in keys && forall k :: k in keys && k != g ==> Less(k, g)
    decreases |keys|
  {
    var x :| x in keys;
    var rest := keys - {x};
    if rest == {} {
      assert forall k :: k in keys && k != x ==> k in rest;
    } else {
      GreatestExists(rest);
      var m :| m in rest && forall k :: k in rest && k != m ==> Less(k, m);
      LessTotal(x, m);
      if Less(x, m) {
        assert forall k :: k in keys && k != m ==> Less(k, m);
      } else {
        forall k | k in keys && k != x
          ensures Less(k, x)
        {
          if k != m {
            LessTransitive(k, m, x);
          }
        }
      }
    }
  }

  /** The last of a non-empty set of strings in `sort.Strings` order. */
  function Greatest(keys: set<string>): (g: string)
    requires keys != {}
    ensures g in keys
    ensures forall k :: k in keys && k != g ==> Less(k, g)
  {
    GreatestExists(keys);
    LessAsymmetric();
    var g :| g in keys && forall k :: k in keys && k != g ==> Less(k, g);
    g
  }
}
