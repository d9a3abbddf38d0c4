/** Splitting at dots, as `split('.')` does. */
module DotSplit {
  import opened Sequences

  function Split(s: string): (parts: seq<string>)
    ensures |parts| > 0
    ensures forall p :: p in parts ==> '.' !in p
  {
    if s == "" then [""] else
    var rest := Split(s[1..]);
    if s[0] == '.' then [""] + rest else [[s[0]] + rest[0]] + rest[1..]
  }

  lemma {:induction false} SplitPlain(s: string)
    requires '.' !in s
    ensures Split(s) == [s]
  {
    if s != "" {
      SplitPlain(s[1..]);
      assert [s[0]] + s[1..] == s;
    }
  }

  lemma {:induction false} SplitAtDot(s: string, rest: string)
    requires '.' !in s
    ensures Split(s + "." + rest) == [s] + Split(rest)
  {
    var whole := s + "." + rest;
    if s == "" {
      assert whole[0] == '.' && whole[1..] == rest;
    } else {
      SplitAtDot(s[1..], rest);
      assert whole[0] == s[0] && whole[1..] == s[1..] + "." + rest;
      assert [s[0]] + s[1..] == s;
    }
  }

  /** What two parts were split from. */
  lemma {:induction false} SplitJoins(s: string)
    ensures |Split(s)| == 1 ==> s == Split(s)[0]
    ensures |Split(s)| == 2 ==> s == Split(s)[0] + "." + Split(s)[1]
  {
    if s != "" {
      SplitJoins(s[1..]);
      var parts, rest := Split(s), Split(s[1..]);
      assert s == [s[0]] + s[1..];
      if s[0] != '.' && |parts| == 2 {
        assert |rest| == 2;
        Associative([s[0]], rest[0] + ".", rest[1]);
        Associative([s[0]], rest[0], ".");
      }
    }
  }
}
