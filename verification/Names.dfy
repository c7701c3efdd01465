/** Dotted names and their components. */
module Names {
  /** The parts between the dots, as strings.Split gives them: one more than there are dots. */
  function Split(s: string): (parts: seq<string>)
    ensures |parts| >= 1
  {
    if s == "" then [""]
    else
      var rest := Split(s[1..]);
      if s[0] == '.' then [""] + rest else [[s[0]] + rest[0]] + rest[1..]
  }

  function Join(parts: seq<string>): string {
    if parts == [] then ""
    else if |parts| == 1 then parts[0]
    else parts[0] + "." + Join(parts[1..])
  }

  predicate DotFree(s: string) {
    '.' !in s
  }

  predicate AllDotFree(parts: seq<string>) {
    forall part <- parts :: DotFree(part)
  }

  lemma {:induction false} SplitIsDotFree(s: string)
    ensures AllDotFree(Split(s))
  {
    if s != "" {
      SplitIsDotFree(s[1..]);
      var rest := Split(s[1..]);
      assert DotFree(rest[0]);
      assert forall part <- rest[1..] :: part in rest;
    }
  }

  lemma {:induction false} JoinOfSplit(s: string)
    ensures Join(Split(s)) == s
  {
    if s != "" {
      JoinOfSplit(s[1..]);
      var rest := Split(s[1..]);
      if s[0] == '.' {
        assert ([""] + rest)[1..] == rest;
      } else {
        assert Split(s)[1..] == rest[1..];
      }
    }
  }

  lemma {:induction false} SplitAtDot(a: string, b: string)
    ensures Split(a + "." + b) == Split(a) + Split(b)
  {
    var s := a + "." + b;
    if a == "" {
      assert s[1..] == b;
    } else {
      assert s[1..] == a[1..] + "." + b;
      SplitAtDot(a[1..], b);
    }
  }

  lemma {:induction false} SplitOfPart(a: string)
    requires DotFree(a)
    ensures Split(a) == [a]
  {
    if a != "" {
      SplitOfPart(a[1..]);
      assert [a[0]] + a[1..] == a;
    }
  }

  lemma {:induction false} SplitOfJoin(parts: seq<string>)
    requires parts != [] && AllDotFree(parts)
    ensures Split(Join(parts)) == parts
  {
    if |parts| == 1 {
      SplitOfPart(parts[0]);
    } else {
      SplitOfJoin(parts[1..]);
      SplitOfPart(parts[0]);
      SplitAtDot(parts[0], Join(parts[1..]));
      assert [parts[0]] + parts[1..] == parts;
    }
  }

  lemma {:induction false} JoinOfConcat(p: seq<string>, q: seq<string>)
    requires p != [] && q != []
    ensures Join(p + q) == Join(p) + "." + Join(q)
  {
    if |p| == 1 {
      assert (p + q)[1..] == q;
    } else {
      assert (p + q)[1..] == p[1..] + q;
      JoinOfConcat(p[1..], q);
    }
  }

  /** Component-wise prefixes are the dotted prefixes. */
  lemma PrefixOfSplit(a: string, b: string)
    ensures Split(a) <= Split(b) <==> a == b || a + "." <= b
  {
    if Split(a) <= Split(b) {
      DottedPrefix(a, b);
    }
    if a + "." <= b {
      var rest := b[|a| + 1..];
      assert b == a + "." + rest;
      SplitAtDot(a, rest);
    }
  }

  lemma DottedPrefix(a: string, b: string)
    requires Split(a) <= Split(b)
    ensures a == b || a + "." <= b
  {
    var p, rest := Split(a), Split(b)[|Split(a)|..];
    assert Split(b) == p + rest;
    JoinOfSplit(a);
    JoinOfSplit(b);
    if rest == [] {
      assert p + rest == p;
    } else {
      JoinOfConcat(p, rest);
    }
  }
}
