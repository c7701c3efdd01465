/**
The conditions that adapters write in place of options.  They are stated on the texts alone: what is left of a mustache
value between its braces, with its parts joined so that a missing one is harmless.
*/
module PipelineGuards {
  import opened Options
  import opened Pipelines
  import opened PipelineChecks
  import Names

  // ---------- texts ----------

  predicate OnlyOf(s: string, a: char, b: char) {
    forall i | 0 <= i < |s| :: s[i] == a || s[i] == b
  }

  /** `t` is what stands between the opening and the closing braces and blanks. */
  ghost predicate IsTrimmed(s: string, t: string) {
    exists l, r :: TrimmedBy(s, l, t, r)
  }

  ghost predicate TrimmedBy(s: string, l: string, t: string, r: string) {
    && s == l + t + r && OnlyOf(l, '{', ' ') && OnlyOf(r, '}', ' ')
    && (t != "" ==> t[0] != '{' && t[0] != ' ' && t[|t| - 1] != '}' && t[|t| - 1] != ' ')
  }

  lemma {:induction false} TrimLeftOf(l: string, s: string, a: char, b: char)
    requires OnlyOf(l, a, b)
    ensures TrimLeft(l + s, a, b) == TrimLeft(s, a, b)
  {
    if l == "" {
      assert l + s == s;
    } else {
      assert (l + s)[0] == l[0] && (l + s)[1..] == l[1..] + s;
      TrimLeftOf(l[1..], s, a, b);
    }
  }

  lemma {:induction false} TrimRightOf(s: string, r: string, a: char, b: char)
    requires OnlyOf(r, a, b)
    ensures TrimRight(s + r, a, b) == TrimRight(s, a, b)
  {
    if r == "" {
      assert s + r == s;
    } else {
      var n := |r| - 1;
      assert (s + r)[|s + r| - 1] == r[n] && (s + r)[..|s + r| - 1] == s + r[..n];
      TrimRightOf(s, r[..n], a, b);
    }
  }

  lemma {:induction false} TrimLeftSplits(s: string, a: char, b: char) returns (l: string)
    ensures OnlyOf(l, a, b) && s == l + TrimLeft(s, a, b)
    ensures var t := TrimLeft(s, a, b); t != "" ==> t[0] != a && t[0] != b
  {
    l := "";
    if s != "" && (s[0] == a || s[0] == b) {
      var rest := TrimLeftSplits(s[1..], a, b);
      l := [s[0]] + rest;
      assert s == [s[0]] + s[1..];
    }
  }

  lemma {:induction false} TrimRightSplits(s: string, a: char, b: char) returns (r: string)
    ensures OnlyOf(r, a, b) && s == TrimRight(s, a, b) + r
    ensures var t := TrimRight(s, a, b); t != "" ==> t[|t| - 1] != a && t[|t| - 1] != b
  {
    r := "";
    if s != "" && (s[|s| - 1] == a || s[|s| - 1] == b) {
      var front := TrimRightSplits(s[..|s| - 1], a, b);
      r := front + [s[|s| - 1]];
      assert s == s[..|s| - 1] + [s[|s| - 1]];
    }
  }

  /** Trimming leaves exactly that text. */
  lemma TrimmedIff(s: string, t: string)
    ensures IsTrimmed(s, t) <==> t == TrimRight(TrimLeft(s, '{', ' '), '}', ' ')
  {
    var m := TrimLeft(s, '{', ' ');
    var l := TrimLeftSplits(s, '{', ' ');
    var r := TrimRightSplits(m, '}', ' ');
    var u := TrimRight(m, '}', ' ');
    assert TrimmedBy(s, l, u, r) by {
      assert u != "" ==> u[0] == m[0];
    }
    if l', r' :| TrimmedBy(s, l', t, r') {
      TrimmedIsTrimmed(s, l', t, r');
    }
  }

  lemma TrimmedIsTrimmed(s: string, l: string, t: string, r: string)
    requires TrimmedBy(s, l, t, r)
    ensures TrimRight(TrimLeft(s, '{', ' '), '}', ' ') == t
  {
    assert s == l + (t + r);
    TrimLeftOf(l, t + r, '{', ' ');
    if t == "" {
      assert t + r == r;
      OnlyClosing(r);
    } else {
      assert TrimLeft(t + r, '{', ' ') == t + r;
      TrimRightOf(t, r, '}', ' ');
    }
  }

  lemma OnlyClosing(r: string)
    requires OnlyOf(r, '}', ' ')
    ensures TrimRight(TrimLeft(r, '{', ' '), '}', ' ') == ""
  {
    var l := TrimLeftSplits(r, '{', ' ');
    var m := TrimLeft(r, '{', ' ');
    assert forall i | 0 <= i < |m| :: m[i] == r[|l| + i];
    TrimRightOf("", m, '}', ' ');
    assert "" + m == m;
  }

  /** Parts joined so that a missing one is harmless. */
  function SafeJoin(parts: seq<string>): string {
    if parts == [] then "" else if |parts| == 1 then parts[0] else parts[0] + "?." + SafeJoin(parts[1..])
  }

  /** A dotted path as a null-safe one. */
  function Safe(path: string): string {
    SafeJoin(Names.Split(path))
  }

  lemma SafeJoinFirst(first: string, rest: seq<string>)
    requires rest != []
    ensures SafeJoin([first] + rest) == first + "?." + SafeJoin(rest)
  {
    assert ([first] + rest)[1..] == rest;
  }

  lemma Regroup(a: string, b: string, c: string, d: string)
    ensures (a + b) + c + d == a + (b + c + d)
  {
  }

  lemma SafeJoinLetter(c: char, parts: seq<string>)
    requires parts != []
    ensures SafeJoin([[c] + parts[0]] + parts[1..]) == [c] + SafeJoin(parts)
  {
    if |parts| > 1 {
      var first, rest := parts[0], parts[1..];
      SafeJoinFirst([c] + first, rest);
      SafeJoinFirst(first, rest);
      assert [first] + rest == parts;
      Regroup([c], first, "?.", SafeJoin(rest));
    }
  }

  lemma {:induction false} NullSafeJoins(s: string)
    ensures NullSafe(s) == Safe(s)
  {
    if s != "" {
      var rest := Names.Split(s[1..]);
      NullSafeJoins(s[1..]);
      if s[0] == '.' {
        SafeJoinFirst("", rest);
      } else {
        SafeJoinLetter(s[0], rest);
      }
    }
  }

  lemma PathIsSafe(value: string, t: string)
    requires IsTrimmed(value, t)
    ensures Path(value) == Safe(t)
  {
    TrimmedIff(value, t);
    NullSafeJoins(t);
  }

  /** The word stands somewhere in the text, in letters of either case. */
  ghost predicate Mentions(s: string, word: string) {
    exists i :: StandsAt(s, word, i)
  }

  predicate StandsAt(s: string, word: string, i: int) {
    0 <= i && i + |word| <= |s| && forall j | 0 <= j < |word| :: LowerLetter(s[i + j]) == word[j]
  }

  lemma {:induction false} LowerAt(s: string)
    ensures |Lower(s)| == |s| && forall i | 0 <= i < |s| :: Lower(s)[i] == LowerLetter(s[i])
  {
    if s != "" {
      LowerAt(s[1..]);
    }
  }

  lemma PrefixStands(s: string, word: string)
    ensures word <= Lower(s) <==> StandsAt(s, word, 0)
  {
    LowerAt(s);
    if StandsAt(s, word, 0) {
      forall j | 0 <= j < |word| ensures word[j] == Lower(s)[j] {
        assert LowerLetter(s[0 + j]) == word[j];
      }
    }
  }

  lemma {:induction false} HasPartIff(s: string, word: string)
    ensures HasPart(Lower(s), word) <==> Mentions(s, word)
  {
    PrefixStands(s, word);
    if s != "" {
      HasPartIff(s[1..], word);
      assert Lower(s)[1..] == Lower(s[1..]);
      if i :| StandsAt(s[1..], word, i) {
        forall j | 0 <= j < |word| ensures LowerLetter(s[i + 1 + j]) == word[j] {
          assert s[1..][i + j] == s[i + 1 + j];
        }
        assert StandsAt(s, word, i + 1);
      }
      if i :| StandsAt(s, word, i) && i > 0 {
        forall j | 0 <= j < |word| ensures LowerLetter(s[1..][i - 1 + j]) == word[j] {
          assert s[1..][i - 1 + j] == s[i + j];
        }
        assert StandsAt(s[1..], word, i - 1);
      }
    }
  }

  // ---------- ignore_empty_value ----------

  /** The option is on or off, there is a text to look at, and no condition yet. */
  predicate NeedsSetGuard(o: Fields) {
    HasBool(o, IgnoreEmptyValue) && !HasText(o, If) && HasText(o, ValueKey)
  }

  /** A set gets the condition that its value is there exactly when it has the option, a text value and no condition. */
  lemma SetGuardIff(o: Fields)
    ensures var n := WithoutEmptyValue(o);
            && SameExcept(o, n, {IgnoreEmptyValue, If})
            && Lookup(n, IgnoreEmptyValue) == (if HasBool(o, IgnoreEmptyValue) then None else Lookup(o, IgnoreEmptyValue))
            && (!NeedsSetGuard(o) ==> Lookup(n, If) == Lookup(o, If))
            && (NeedsSetGuard(o) ==>
                  forall t | IsTrimmed(o[ValueKey].s, t) :: Lookup(n, If) == Some(Text("ctx?." + Safe(t) + " != null")))
  {
    AdaptersKeepTheRest(Flat(SetProc, o));
    if NeedsSetGuard(o) {
      forall t | IsTrimmed(o[ValueKey].s, t) ensures Path(o[ValueKey].s) == Safe(t) {
        PathIsSafe(o[ValueKey].s, t);
      }
    }
  }

  // ---------- allow_duplicates ----------

  /** Duplicates are forbidden, field and value are texts, and the condition does not look for duplicates itself. */
  ghost predicate NeedsAppendGuard(o: Fields) {
    && Lookup(o, AllowDuplicates) == Some(Bool(false)) && HasText(o, Field) && HasText(o, ValueKey)
    && !Mentions(TextOr(o, If, ""), "contains")
  }

  /** And not in the list yet, or not the value itself. */
  function AndNotThereYet(field: string, value: string): string {
    " && ((ctx?." + field + " instanceof List && !ctx?." + field + ".contains(ctx?." + value + ")) || ctx?." + field +
    " != ctx?." + value + ")"
  }

  function FirstPart(guard: string, value: string): string {
    if guard == "" then "ctx?." + value + " != null" else guard
  }

  lemma Assoc(a: string, b: string, c: string)
    ensures a + b + c == a + (b + c)
  {
  }

  lemma GuardInParts(guard: string, field: string, value: string)
    ensures DuplicateGuard(guard, field, value) == FirstPart(guard, value) + AndNotThereYet(field, value)
  {
    var a := FirstPart(guard, value);
    var r1 := " && ((ctx?.";
    var r2 := r1 + field;
    var r3 := r2 + " instanceof List && !ctx?.";
    var r4 := r3 + field;
    var r5 := r4 + ".contains(ctx?.";
    var r6 := r5 + value;
    var r7 := r6 + ")) || ctx?.";
    var r8 := r7 + field;
    var r9 := r8 + " != ctx?.";
    var r10 := r9 + value;
    Assoc(a, r1, field);
    Assoc(a, r2, " instanceof List && !ctx?.");
    Assoc(a, r3, field);
    Assoc(a, r4, ".contains(ctx?.");
    Assoc(a, r5, value);
    Assoc(a, r6, ")) || ctx?.");
    Assoc(a, r7, field);
    Assoc(a, r8, " != ctx?.");
    Assoc(a, r9, value);
    Assoc(a, r10, ")");
  }

  lemma AppendGuardIff(o: Fields)
    ensures var n := WithoutDuplicates(o);
            && SameExcept(o, n, {AllowDuplicates, If})
            && Lookup(n, AllowDuplicates) == (if HasBool(o, AllowDuplicates) then None else Lookup(o, AllowDuplicates))
            && (!NeedsAppendGuard(o) ==> Lookup(n, If) == Lookup(o, If))
            && (NeedsAppendGuard(o) ==>
                  forall t | IsTrimmed(o[ValueKey].s, t) ::
                    Lookup(n, If) ==
                    Some(Text(FirstPart(TextOr(o, If, ""), Safe(t)) + AndNotThereYet(Safe(o[Field].s), Safe(t)))))
  {
    AdaptersKeepTheRest(Flat(Append, o));
    HasPartIff(TextOr(o, If, ""), "contains");
    if NeedsAppendGuard(o) {
      NullSafeJoins(o[Field].s);
      forall t | IsTrimmed(o[ValueKey].s, t) ensures Path(o[ValueKey].s) == Safe(t) {
        PathIsSafe(o[ValueKey].s, t);
      }
      GuardInParts(TextOr(o, If, ""), Safe(o[Field].s), Path(o[ValueKey].s));
    }
  }

  // ---------- all options ----------

  /** The options that adapting to `v` may change. */
  function MayChange(v: Version, name: Word): set<Word> {
    DescriptionAt(v) +
    match name
    case Append => if Before(v, 7, 10) then {AllowDuplicates, If} else {}
    case SetProc => if Before(v, 7, 9) then {IgnoreEmptyValue, If} else {}
    case UserAgent => if Before(v, 7, 0) then {Ecs} else {}
    case Convert => if Before(v, 7, 13) then {Type, TargetField, PatternsKey} else {}
    case _ => {}
  }

  function DescriptionAt(v: Version): set<Word> {
    if Before(v, 7, 9) then {Description} else {}
  }

  lemma DescribedStays(v: Version, f: Flat, g: Flat, keys: set<Word>)
    requires SameExcept(f.options, g.options, keys) && Description !in keys
    requires Described(v, g).Ok? && Described(v, g).value.Some?
    ensures OptionsStay(v, f, Described(v, g).value.value, DescriptionAt(v) + keys)
  {
    var h := Described(v, g).value.value;
    assert Lookup(f.options - keys, Description) == Lookup(g.options - keys, Description);
    assert SameExcept(g.options, h.options, DescriptionAt(v));
    SameExceptTwice(f.options, g.options, h.options, keys, DescriptionAt(v));
  }

  lemma SameExceptTwice(a: Fields, b: Fields, c: Fields, x: set<Word>, y: set<Word>)
    requires SameExcept(a, b, x) && SameExcept(b, c, y)
    ensures SameExcept(a, c, y + x)
  {
    assert a - (y + x) == (a - x) - y && c - (y + x) == (c - y) - x && b - (y + x) == (b - x) - y == (b - y) - x;
  }

  /** Only these options have changed, and a description is lost exactly where it is not known. */
  predicate OptionsStay(v: Version, f: Flat, g: Flat, keys: set<Word>) {
    && SameExcept(f.options, g.options, keys)
    && (HasText(f.options, Description) ==> (Description in g.options <==> !Before(v, 7, 9)))
  }

  /** What the entry for its type makes of a processor that survives, before the last entry of the table. */
  lemma ByEntry(v: Version, f: Flat) returns (g: Flat)
    requires Adapted(v, f).Ok? && Adapted(v, f).value.Some?
    ensures Adapted(v, f) == Described(v, g)
    ensures SameExcept(f.options, g.options, MayChange(v, f.name) - {Description})
  {
    g := f;
    if f.name.Append? && Before(v, 7, 10) {
      g := f.(options := WithoutDuplicates(f.options));
      AppendGuardIff(f.options);
    } else if f.name.SetProc? && Before(v, 7, 9) {
      g := f.(options := WithoutEmptyValue(f.options));
      SetGuardIff(f.options);
    } else if f.name.UserAgent? && Before(v, 7, 0) {
      g := f.(options := f.options[Ecs := Bool(true)]);
      assert SameExcept(f.options, g.options, {Ecs});
    } else if f.name.Convert? && Before(v, 7, 13) {
      g := IpAsGrok(f).value;
      if ConvertsIp(f) { AdaptersKeepTheRest(f); }
    }
  }

  /** Whatever survives keeps every option that its entry and the last one are not about. */
  lemma OtherOptionsStay(v: Version, f: Flat)
    requires Adapted(v, f).Ok? && Adapted(v, f).value.Some?
    ensures OptionsStay(v, f, Adapted(v, f).value.value, MayChange(v, f.name))
  {
    var g := ByEntry(v, f);
    DescribedStays(v, f, g, MayChange(v, f.name) - {Description});
    assert DescriptionAt(v) + (MayChange(v, f.name) - {Description}) == MayChange(v, f.name);
  }
}
