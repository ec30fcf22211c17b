/** Splitting text at newlines and joining lines back, with Python's
    `str.split('\n')` and `'\n'.join(...)` behaviour: splitting never yields
    an empty list, and an empty piece stands for each leading, trailing or
    doubled newline. */
module TextLines {

  predicate NoNewline(s: string) {
    '\n' !in s
  }

  /** `s.split('\n')` */
  function Split(s: string): (ls: seq<string>)
    ensures |ls| > 0
    ensures forall i :: 0 <= i < |ls| ==> NoNewline(ls[i])
    decreases |s|
  {
    if |s| == 0 then [""]
    else if s[0] == '\n' then [""] + Split(s[1..])
    else
      var rest := Split(s[1..]);
      [[s[0]] + rest[0]] + rest[1..]
  }

  /** `'\n'.join(ls)` */
  function Join(ls: seq<string>): string {
    if |ls| == 0 then ""
    else if |ls| == 1 then ls[0]
    else ls[0] + "\n" + Join(ls[1..])
  }

  /** A piece without newlines splits to itself. */
  lemma {:induction false} SplitSingle(a: string)
    requires NoNewline(a)
    ensures Split(a) == [a]
    decreases |a|
  {
    if |a| > 0 {
      assert NoNewline(a[1..]);
      SplitSingle(a[1..]);
      assert [a[0]] + a[1..] == a;
    }
  }

  /** Splitting stops at the first newline. */
  lemma {:induction false} SplitAtNewline(a: string, b: string)
    requires NoNewline(a)
    ensures Split(a + "\n" + b) == [a] + Split(b)
    decreases |a|
  {
    var s := a + "\n" + b;
    if |a| == 0 {
      assert s == "\n" + b;
      assert s[1..] == b;
    } else {
      assert s[0] == a[0];
      assert s[1..] == a[1..] + "\n" + b;
      assert NoNewline(a[1..]);
      SplitAtNewline(a[1..], b);
      assert [a[0]] + a[1..] == a;
    }
  }

  /** Splitting a join of newline-free pieces gives the pieces back. */
  lemma {:induction false} SplitJoin(ls: seq<string>)
    requires |ls| > 0
    requires forall l :: l in ls ==> NoNewline(l)
    ensures Split(Join(ls)) == ls
    decreases |ls|
  {
    assert ls[0] in ls;
    if |ls| == 1 {
      SplitSingle(ls[0]);
    } else {
      assert forall l :: l in ls[1..] ==> l in ls;
      SplitJoin(ls[1..]);
      SplitAtNewline(ls[0], Join(ls[1..]));
      assert [ls[0]] + ls[1..] == ls;
    }
  }
}
