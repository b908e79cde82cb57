/** Dotted field paths (`a.b.c`) as v3 splits them on '.'. */
module Paths {

  /** The pieces of `s` between the dots, like the host's `split('.')`. */
  function Split(s: string): (r: seq<string>)
    ensures |r| >= 1
    ensures '.' !in s ==> r == [s]
    ensures forall k :: 0 <= k < |r| ==> '.' !in r[k]
    decreases |s|
  {
    if s == [] then [[]]
    else if s[0] == '.' then [[]] + Split(s[1..])
    else
      var rest := Split(s[1..]);
      assert [s[0]] + s[1..] == s;
      assert '.' !in s ==> '.' !in s[1..];
      [[s[0]] + rest[0]] + rest[1..]
  }

  /** The pieces joined back with dots. */
  function Join(parts: seq<string>): string
    requires |parts| >= 1
    decreases |parts|
  {
    if |parts| == 1 then parts[0] else parts[0] + ['.'] + Join(parts[1..])
  }

  /** Splitting loses nothing: the pieces joined with dots give the name back. */
  lemma {:induction false} JoinSplit(s: string)
    ensures Join(Split(s)) == s
    decreases |s|
  {
    if s != [] {
      JoinSplit(s[1..]);
      var rest := Split(s[1..]);
      if s[0] != '.' {
        if |rest| > 1 {
          assert Split(s)[1..] == rest[1..];
          assert Join(Split(s)) == [s[0]] + rest[0] + ['.'] + Join(rest[1..]);
        }
      }
    }
  }

  /** A name is a field path exactly when splitting it gives two or more pieces. */
  lemma {:induction false} SplitDotted(s: string)
    ensures '.' in s <==> |Split(s)| >= 2
    decreases |s|
  {
    if s != [] && s[0] != '.' {
      SplitDotted(s[1..]);
    }
  }

  /** Splitting a join of dot-free pieces gives the pieces back. */
  lemma {:induction false} SplitJoin(parts: seq<string>)
    requires |parts| >= 1
    requires forall k :: 0 <= k < |parts| ==> '.' !in parts[k]
    ensures Split(Join(parts)) == parts
    decreases |parts|, |parts[0]|
  {
    if |parts| > 1 && parts[0] == [] {
      SplitJoin(parts[1..]);
      assert Join(parts) == ['.'] + Join(parts[1..]);
      assert Join(parts)[1..] == Join(parts[1..]);
    } else if |parts| > 1 {
      var p0 := parts[0];
      var tail := [p0[1..]] + parts[1..];
      assert tail[1..] == parts[1..];
      SplitJoin(tail);
      assert Join(parts) == [p0[0]] + Join(tail);
      assert Join(parts)[1..] == Join(tail);
      assert [p0[0]] + p0[1..] == p0;
    }
  }
}
