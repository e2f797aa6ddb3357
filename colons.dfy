/** Python's `str.split(":")` on strings, and its inverse `":".join(...)`. */
module Colons {

  /** No piece produced by splitting on ':' contains ':'. */
  predicate ColonFree(s: string) {
    ':' !in s
  }

  /** The number of ':' characters in `s`. */
  function ColonCount(s: string): (n: nat)
    ensures (n == 0) == ColonFree(s)
    ensures n <= |s|
  {
    if s == [] then 0
    else (if s[0] == ':' then 1 else 0) + ColonCount(s[1..])
  }

  /** `s.split(":")`: the maximal colon-free pieces of `s`, in order. There is
      always one piece more than there are colons, so `""` gives `[""]`. */
  function Split(s: string): (parts: seq<string>)
    ensures |parts| == ColonCount(s) + 1
    ensures forall i | 0 <= i < |parts| :: ColonFree(parts[i])
  {
    if s == [] then [[]]
    else
      var rest := Split(s[1..]);
      if s[0] == ':' then [[]] + rest
      else [[s[0]] + rest[0]] + rest[1..]
  }

  /** `":".join(parts)`. */
  function Join(parts: seq<string>): string
    requires |parts| >= 1
  {
    if |parts| == 1 then parts[0] else parts[0] + [':'] + Join(parts[1..])
  }

  /** Joining a first piece onto at least one more puts a ':' between them. */
  lemma JoinCons(first: string, rest: seq<string>)
    requires |rest| >= 1
    ensures Join([first] + rest) == first + [':'] + Join(rest)
  {
  }

  /** Joining the pieces of a split gives back the original string. */
  lemma {:induction false} JoinSplit(s: string)
    ensures Join(Split(s)) == s
  {
    if s != [] {
      var rest := Split(s[1..]);
      JoinSplit(s[1..]);
      if s[0] == ':' {
        assert Split(s) == [[]] + rest;
        assert Join(Split(s)) == [] + [':'] + Join(rest);
      } else {
        var parts := Split(s);
        assert parts == [[s[0]] + rest[0]] + rest[1..];
        if |rest| == 1 {
          assert Join(parts) == [s[0]] + rest[0];
        } else {
          assert parts[1..] == rest[1..];
          assert Join(parts) == [s[0]] + rest[0] + [':'] + Join(rest[1..]);
          assert Join(rest) == rest[0] + [':'] + Join(rest[1..]);
        }
      }
    }
  }

  /** Splitting `a + ":" + b` splits `a` and `b` separately. */
  lemma {:induction false} SplitAppend(a: string, b: string)
    ensures Split(a + [':'] + b) == Split(a) + Split(b)
  {
    var s := a + [':'] + b;
    if a == [] {
      assert s[1..] == b;
    } else {
      assert s[1..] == a[1..] + [':'] + b;
      SplitAppend(a[1..], b);
    }
  }

  /** A colon-free string is a single piece. */
  lemma {:induction false} SplitColonFree(a: string)
    requires ColonFree(a)
    ensures Split(a) == [a]
  {
    assert ColonCount(a) == 0;
    var parts := Split(a);
    JoinSplit(a);
    assert |parts| == 1;
  }

  /** Splitting the join of colon-free pieces gives back the pieces. */
  lemma {:induction false} SplitJoin(parts: seq<string>)
    requires |parts| >= 1
    requires forall i | 0 <= i < |parts| :: ColonFree(parts[i])
    ensures Split(Join(parts)) == parts
  {
    if |parts| == 1 {
      SplitColonFree(parts[0]);
    } else {
      SplitJoin(parts[1..]);
      SplitAppend(parts[0], Join(parts[1..]));
      SplitColonFree(parts[0]);
      assert parts == [parts[0]] + parts[1..];
    }
  }
}
