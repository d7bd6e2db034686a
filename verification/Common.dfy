/** Small definitions shared by every module: optional values, results and the
    few string operations of the Go standard library the bridges rely on. */
module Common {

  datatype Option<+T> = None | Some(value: T)

  datatype Result<+T> = Ok(value: T) | Err

  function Init<T>(s: seq<T>): seq<T>
    requires s != []
  {
    s[..|s| - 1]
  }

  function Last<T>(s: seq<T>): T
    requires s != []
  {
    s[|s| - 1]
  }

  lemma InitOfSnoc<T>(s: seq<T>, x: T)
    ensures Init(s + [x]) == s && Last(s + [x]) == x
  {
    assert (s + [x])[..|s|] == s;
  }

  /** unicode.IsSpace, the notion of white space behind strings.TrimSpace. */
  predicate IsSpace(c: char) {
    || c in "\t\n\r "
    || c as int in {0x0B, 0x0C, 0x85, 0xA0, 0x1680, 0x2028, 0x2029, 0x202F, 0x205F, 0x3000}
    || 0x2000 <= c as int <= 0x200A
  }

  /** strings.TrimSpace(s) == "". */
  predicate IsBlank(s: string) {
    forall i | 0 <= i < |s| :: IsSpace(s[i])
  }

  /** strings.TrimSpace */
  function Trimmed(s: string): (t: string)
    ensures t == "" <==> IsBlank(s)
  {
    if s == "" then ""
    else if IsSpace(s[0]) then Trimmed(s[1..])
    else if IsSpace(Last(s)) then TrimmedRight(s)
    else s
  }

  function TrimmedRight(s: string): (t: string)
    requires s != "" && !IsSpace(s[0])
    ensures t != ""
  {
    if IsSpace(Last(s)) then TrimmedRight(Init(s)) else s
  }

  /** The text a strings.Builder holds after the pieces were written to it. */
  function Concat(pieces: seq<string>): string {
    if pieces == [] then "" else Concat(pieces[..|pieces| - 1]) + pieces[|pieces| - 1]
  }

  /** strings.Join(parts, sep). */
  function Join(parts: seq<string>, sep: string): string {
    if parts == [] then ""
    else if |parts| == 1 then parts[0]
    else parts[0] + sep + Join(parts[1..], sep)
  }

  predicate Ascending(s: seq<int>) {
    forall i, j | 0 <= i < j < |s| :: s[i] < s[j]
  }

  lemma {:induction false} SmallestExists(s: set<int>)
    requires s != {}
    ensures exists m :: m in s && forall x | x in s :: m <= x
  {
    if forall m :: m !in s {
      assert false;
    }
    var m :| m in s;
    var rest := s - {m};
    if rest == {} {
      assert s == {m};
    } else {
      SmallestExists(rest);
      var n :| n in rest && forall x | x in rest :: n <= x;
      var least := if m <= n then m else n;
      assert least in s;
      forall x | x in s ensures least <= x {
        assert x == m || x in rest;
      }
    }
  }

  /** The elements of a finite set in the order sort.Ints gives them. */
  function Sorted(s: set<int>): (r: seq<int>)
    ensures Ascending(r)
    ensures forall x :: x in r <==> x in s
    ensures |r| == |s|
  {
    if s == {} then []
    else
      SmallestExists(s);
      var m :| m in s && forall x | x in s :: m <= x;
      SortedCons(s, m, Sorted(s - {m}));
      [m] + Sorted(s - {m})
  }

  lemma SortedCons(s: set<int>, m: int, rest: seq<int>)
    requires m in s && (forall x | x in s :: m <= x)
    requires Ascending(rest) && (forall x :: x in rest <==> x in s - {m}) && |rest| == |s - {m}|
    ensures Ascending([m] + rest) && |[m] + rest| == |s|
    ensures forall x :: x in [m] + rest <==> x in s
  {
    assert forall i | 0 <= i < |rest| :: rest[i] in rest;
  }

  lemma TailsAgree<T>(base: seq<T>, a: seq<T>, b: seq<T>)
    ensures base + a == base + b <==> a == b
  {
    if base + a == base + b {
      assert a == (base + a)[|base|..];
      assert b == (base + b)[|base|..];
    }
  }

  /** The numbers 0 .. n - 1. */
  function Below(n: nat): (s: set<int>)
    ensures |s| == n && forall k :: k in s <==> 0 <= k < n
  {
    if n == 0 then {} else Below(n - 1) + {n - 1}
  }

  /** A set of n numbers that has all of 0 .. n - 1 has nothing else. */
  lemma NothingElse(s: set<int>)
    requires forall k | 0 <= k < |s| :: k in s
    ensures s == Below(|s|)
  {
    var b := Below(|s|);
    assert b <= s;
    assert |s - b| == |s| - |b|;
  }

  /** Sorting 0 .. n - 1 gives each number at its own place. */
  lemma SortedUpTo(s: seq<int>, n: nat)
    requires Ascending(s) && |s| == n && forall k :: k in s <==> 0 <= k < n
    ensures forall i | 0 <= i < n :: s[i] == i
  {
    assert forall i | 0 <= i < n :: s[i] in s;
    forall i | 0 <= i < n ensures s[i] == i {
      AscendingBelow(s, i, s[0]);
      AscendingAbove(s, i, n);
    }
  }

  lemma AscendingInit(s: seq<int>)
    requires Ascending(s) && s != []
    ensures Ascending(Init(s)) && Last(s) in s
    ensures forall k :: k in Init(s) <==> k in s && k != Last(s)
    ensures forall k | k in s :: k <= Last(s)
  {
    assert s == Init(s) + [Last(s)];
    forall k | k in s ensures k <= Last(s) {
      var i :| 0 <= i < |s| && s[i] == k;
    }
  }

  /** An ascending sequence is known by its elements. */
  lemma {:induction false} AscendingUnique(a: seq<int>, b: seq<int>)
    requires Ascending(a) && Ascending(b) && forall k :: k in a <==> k in b
    ensures a == b
  {
    assert a != [] ==> a[0] in a;
    assert b != [] ==> b[0] in b;
    if a != [] && b != [] {
      AscendingInit(a);
      AscendingInit(b);
      assert Last(a) in b && Last(b) in a;
      hide Ascending;
      AscendingUnique(Init(a), Init(b));
      assert a == Init(a) + [Last(a)] && b == Init(b) + [Last(b)];
    }
  }

  lemma {:induction false} AscendingBelow(s: seq<int>, i: nat, low: int)
    requires Ascending(s) && i < |s| && s[0] in s && 0 <= low <= s[0]
    ensures s[i] >= low + i
  {
    if i > 0 {
      AscendingBelow(s, i - 1, low);
    }
  }

  lemma {:induction false} AscendingAbove(s: seq<int>, i: nat, n: nat)
    requires Ascending(s) && i < |s| == n && forall k | 0 <= k < n :: s[k] < n
    ensures s[i] <= i
    decreases n - i
  {
    if i < n - 1 {
      AscendingAbove(s, i + 1, n);
    }
  }

  lemma Associates<A>(x: seq<A>, y: seq<A>, z: seq<A>)
    ensures x + y + z == x + (y + z)
  {
  }
}
