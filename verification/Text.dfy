/** The order in which account names are sorted and locked. */
module Text {

  /** Code-unit order, as Array.prototype.sort uses. */
  predicate Less(a: string, b: string) {
    if a == "" then b != ""
    else if b == "" then false
    else a[0] < b[0] || (a[0] == b[0] && Less(a[1..], b[1..]))
  }

  /** The first difference decides: a missing character, or a smaller one. */
  lemma {:induction false} LessMeans(a: string, b: string)
    ensures Less(a, b) <==> exists n :: 0 <= n <= |a| && DiffersFirstAt(a, b, n)
  {
    if a != "" && b != "" && a[0] == b[0] {
      LessMeans(a[1..], b[1..]);
      if n :| 0 <= n <= |a[1..]| && DiffersFirstAt(a[1..], b[1..], n) {
        forall i | 0 <= i < n + 1
          ensures a[i] == b[i]
        {
          assert i > 0 ==> a[1..][i - 1] == b[1..][i - 1];
        }
        assert DiffersFirstAt(a, b, n + 1);
      }
      if n :| 0 <= n <= |a| && DiffersFirstAt(a, b, n) {
        assert n > 0 && DiffersFirstAt(a[1..], b[1..], n - 1);
      }
    } else {
      assert Less(a, b) ==> DiffersFirstAt(a, b, 0);
    }
  }

  /** The first n characters are the same, and then the first string ends or goes on with a smaller one. */
  predicate DiffersFirstAt(a: string, b: string, n: nat) {
    && n <= |a| && n < |b| && (forall i :: 0 <= i < n ==> a[i] == b[i])
    && (n == |a| || a[n] < b[n])
  }

  lemma {:induction false} LessIrreflexive(a: string)
    ensures !Less(a, a)
  {
    if a != "" {
      LessIrreflexive(a[1..]);
    }
  }

  lemma {:induction false} LessTransitive(a: string, b: string, c: string)
    requires Less(a, b) && Less(b, c)
    ensures Less(a, c)
  {
    if a != "" && a[0] == b[0] == c[0] {
      LessTransitive(a[1..], b[1..], c[1..]);
    }
  }

  lemma {:induction false} LessTotal(a: string, b: string)
    ensures a == b || Less(a, b) || Less(b, a)
  {
    if a != "" && b != "" && a[0] == b[0] {
      LessTotal(a[1..], b[1..]);
      if a[1..] == b[1..] {
        assert a == [a[0]] + a[1..] == [b[0]] + b[1..] == b;
      }
    }
  }

  predicate Ascending(s: seq<string>) {
    forall i, j :: 0 <= i < j < |s| ==> Less(s[i], s[j])
  }

  /** What stands before an ascending list stands before the list with one more name. */
  lemma StillBefore(s: seq<string>, a: string, rest: seq<string>)
    requires s != [] && Ascending(s) && Less(s[0], a)
    requires forall x :: x in rest <==> x in s[1..] || x == a
    ensures forall j :: 0 <= j < |rest| ==> Less(s[0], rest[j])
  {
    forall j | 0 <= j < |rest|
      ensures Less(s[0], rest[j])
    {
      assert rest[j] in rest;
      if rest[j] != a {
        var i :| 0 <= i < |s[1..]| && s[1..][i] == rest[j];
        assert Less(s[0], s[i + 1]);
      }
    }
  }

  lemma ConsAscends(a: string, rest: seq<string>)
    requires Ascending(rest) && forall j :: 0 <= j < |rest| ==> Less(a, rest[j])
    ensures Ascending([a] + rest)
  {}

  lemma BeforeAll(a: string, s: seq<string>)
    requires s != [] && Ascending(s) && Less(a, s[0])
    ensures forall j :: 0 <= j < |s| ==> Less(a, s[j])
  {
    forall j | 0 < j < |s|
      ensures Less(a, s[j])
    {
      LessTransitive(a, s[0], s[j]);
    }
  }

  /** Inserts a name into an ascending list, once. */
  function Insert(s: seq<string>, a: string): (r: seq<string>)
    requires Ascending(s)
    ensures Ascending(r)
    ensures forall x :: x in r <==> x in s || x == a
  {
    if s == [] then [a]
    else if a == s[0] then s
    else if Less(a, s[0]) then
      BeforeAll(a, s);
      ConsAscends(a, s);
      [a] + s
    else
      LessTotal(a, s[0]);
      var rest := Insert(s[1..], a);
      assert forall x :: x in s <==> x == s[0] || x in s[1..];
      StillBefore(s, a, rest);
      ConsAscends(s[0], rest);
      [s[0]] + rest
  }

  /** The distinct names of a list, ascending: the lock order. */
  function SortedUnique(s: seq<string>): (r: seq<string>)
    ensures Ascending(r)
    ensures forall x :: x in r <==> x in s
  {
    if s == [] then [] else
      assert forall x :: x in s <==> x == s[0] || x in s[1..];
      Insert(SortedUnique(s[1..]), s[0])
  }
}
