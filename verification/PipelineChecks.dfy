/** The check table on a single processor: what it accepts, and how two runs for different versions combine. */
module PipelineChecks {
  import opened Options
  import opened Pipelines

  /** The options that the table leaves to the nesting. */
  predicate Clean(f: Flat) {
    OnFailure !in f.options && Inner !in f.options
  }

  /** The last entry of the table, which is for every type. */
  function Described(v: Version, f: Flat): Result<Option<Flat>, Problem> {
    if !Before(v, 7, 9) then Ok(Some(f))
    else if IsNil(f.name) then Ok(None)
    else Ok(Some(f.(options := WithoutDescription(f.options))))
  }

  /** An entry answered `r`, and no entry but the last is for what it made. */
  function Finish(v: Version, r: Result<Flat, Problem>): Result<Option<Flat>, Problem> {
    match r
    case Err(e) => Err(e)
    case Ok(g) => if IsNil(g.name) then Ok(None) else Described(v, g)
  }

  /** The table read by processor type. */
  function Adapted(v: Version, f: Flat): Result<Option<Flat>, Problem> {
    match f.name
    case Append =>
      Described(v, if Before(v, 7, 10) then f.(options := WithoutDuplicates(f.options)) else f)
    case SetProc =>
      Described(v, if Before(v, 7, 9) then f.(options := WithoutEmptyValue(f.options)) else f)
    case CommunityId => if Before(v, 7, 12) then Ok(None) else Described(v, f)
    case UriParts => if Before(v, 7, 12) then Ok(None) else Described(v, f)
    case UserAgent =>
      if Before(v, 6, 7) then Err(UserAgentTooOld)
      else Described(v, if Before(v, 7, 0) then f.(options := f.options[Ecs := Bool(true)]) else f)
    case Convert =>
      if Before(v, 7, 13) then Finish(v, IpAsGrok(f)) else Described(v, f)
    case NetworkDirection => if Before(v, 7, 13) then Ok(None) else Described(v, f)
    case RegisteredDomain => if Before(v, 7, 13) then Ok(None) else Described(v, f)
    case _ => Described(v, f)
  }

  lemma SkipCheck(v: Version, f: Flat, i: nat)
    requires i < |Table| && (!ForType(Table[i], f.name) || !ForVersion(Table[i], v))
    ensures RunChecks(v, f, Table[i..]) == RunChecks(v, f, Table[i + 1..])
  {
    assert Table[i..][1..] == Table[i + 1..];
  }

  /** The rest of the table after an entry has answered `r`. */
  function Onward(v: Version, r: Result<Flat, Problem>, i: nat): Result<Option<Flat>, Problem>
    requires i <= |Table|
  {
    match r
    case Err(e) => Err(e)
    case Ok(g) => if IsNil(g.name) then Ok(None) else RunChecks(v, g, Table[i..])
  }

  lemma TakeCheck(v: Version, f: Flat, i: nat)
    requires i < |Table| && ForType(Table[i], f.name) && ForVersion(Table[i], v)
    ensures RunChecks(v, f, Table[i..]) == Onward(v, AdaptConfig(Table[i], f), i + 1)
  {
    assert Table[i..][1..] == Table[i + 1..];
  }

  lemma LastCheck(v: Version, f: Flat)
    ensures RunChecks(v, f, Table[9..]) == Described(v, f)
  {
    assert Table[10..] == [];
    if Before(v, 7, 9) { TakeCheck(v, f, 9); } else { SkipCheck(v, f, 9); }
  }

  predicate NoneFor(name: Word, i: nat, j: nat)
    requires j <= |Table|
  {
    forall k :: i <= k < j ==> !ForType(Table[k], name)
  }

  /** The entries of a type, besides the last entry of the table, lie in `Lo(name) .. Hi(name)`. */
  function Lo(name: Word): nat {
    match name
    case Append => 0
    case CommunityId => 1
    case SetProc => 2
    case UriParts => 3
    case UserAgent => 4
    case Convert => 6
    case NetworkDirection => 7
    case RegisteredDomain => 8
    case _ => 9
  }

  function Hi(name: Word): nat {
    if name.UserAgent? then 6 else if Lo(name) < 9 then Lo(name) + 1 else 9
  }

  lemma EntriesOf(name: Word, k: nat)
    requires k < 9
    ensures ForType(Table[k], name) <==> Lo(name) <= k < Hi(name)
  {
    match k
    case 0 => assert Table[0].AppendCheck?;
    case 1 => assert Table[1].CommunityIdCheck?;
    case 2 => assert Table[2].SetCheck?;
    case 3 => assert Table[3].UriPartsCheck?;
    case 4 => assert Table[4].UserAgentEcsCheck?;
    case 5 => assert Table[5].UserAgentOldCheck?;
    case 6 => assert Table[6].ConvertCheck?;
    case 7 => assert Table[7].NetworkDirectionCheck?;
    case _ => assert Table[8].RegisteredDomainCheck?;
  }

  lemma NoneOutside(name: Word, i: nat, j: nat)
    requires i <= j <= 9 && (j <= Lo(name) || Hi(name) <= i)
    ensures NoneFor(name, i, j)
  {
    forall k | i <= k < j ensures !ForType(Table[k], name) {
      EntriesOf(name, k);
    }
  }

  lemma {:induction false} SkipTo(v: Version, f: Flat, i: nat, j: nat)
    requires i <= j <= 9 && NoneFor(f.name, i, j)
    ensures RunChecks(v, f, Table[i..]) == RunChecks(v, f, Table[j..])
    decreases j - i
  {
    if i < j {
      SkipCheck(v, f, i);
      SkipTo(v, f, i + 1, j);
    }
  }

  lemma OnwardFinish(v: Version, r: Result<Flat, Problem>, i: nat)
    requires i <= 9 && (r.Ok? ==> IsNil(r.value.name) || NoneFor(r.value.name, i, 9))
    ensures Onward(v, r, i) == Finish(v, r)
  {
    if r.Ok? && !IsNil(r.value.name) {
      SkipTo(v, r.value, i, 9);
      LastCheck(v, r.value);
    }
  }

  /** A type with the single entry `i` besides the last one. */
  lemma OneEntry(v: Version, f: Flat, i: nat, r: Result<Flat, Problem>)
    requires i < 9 && NoneFor(f.name, 0, i) && NoneFor(f.name, i + 1, 9) && ForType(Table[i], f.name)
    requires r == AdaptConfig(Table[i], f) && (r.Ok? ==> IsNil(r.value.name) || NoneFor(r.value.name, i + 1, 9))
    ensures RunChecks(v, f, Table) == if ForVersion(Table[i], v) then Finish(v, r) else Described(v, f)
  {
    assert Table[0..] == Table;
    SkipTo(v, f, 0, i);
    if ForVersion(Table[i], v) {
      TakeCheck(v, f, i);
      OnwardFinish(v, r, i + 1);
    } else {
      SkipCheck(v, f, i);
      SkipTo(v, f, i + 1, 9);
      LastCheck(v, f);
    }
  }

  /** A type with one entry: what it answers, then the last entry. */
  lemma SingleEntry(v: Version, f: Flat, r: Result<Flat, Problem>)
    requires Lo(f.name) < 9 && !f.name.UserAgent? && r == AdaptConfig(Table[Lo(f.name)], f)
    requires r.Ok? ==> r.value.name == f.name || IsNil(r.value.name) || r.value.name.Grok?
    ensures RunChecks(v, f, Table) == if ForVersion(Table[Lo(f.name)], v) then Finish(v, r) else Described(v, f)
  {
    var i := Lo(f.name);
    EntriesOf(f.name, i);
    NoneOutside(f.name, 0, i);
    NoneOutside(f.name, i + 1, 9);
    if r.Ok? && r.value.name != f.name && !IsNil(r.value.name) { NoneOutside(r.value.name, i + 1, 9); }
    OneEntry(v, f, i, r);
  }

  lemma NoEntry(v: Version, f: Flat)
    requires Lo(f.name) == 9
    ensures RunChecks(v, f, Table) == Described(v, f)
  {
    assert Table[0..] == Table;
    NoneOutside(f.name, 0, 9);
    SkipTo(v, f, 0, 9);
    LastCheck(v, f);
  }

  lemma RestOfUserAgent(v: Version, f: Flat)
    requires f.name.UserAgent? && !Before(v, 6, 7)
    ensures RunChecks(v, f, Table[5..]) == Described(v, f)
  {
    assert Table[5].UserAgentOldCheck?;
    SkipCheck(v, f, 5);
    NoneOutside(f.name, 6, 9);
    SkipTo(v, f, 6, 9);
    LastCheck(v, f);
  }

  lemma UserAgentEntries(v: Version, f: Flat)
    requires f.name.UserAgent?
    ensures RunChecks(v, f, Table) == Adapted(v, f)
  {
    assert Table[0..] == Table;
    NoneOutside(f.name, 0, 4);
    SkipTo(v, f, 0, 4);
    assert Table[4].UserAgentEcsCheck? && Table[5].UserAgentOldCheck?;
    if Before(v, 6, 7) {
      SkipCheck(v, f, 4);
      TakeCheck(v, f, 5);
    } else if Before(v, 7, 0) {
      TakeCheck(v, f, 4);
      RestOfUserAgent(v, f.(options := f.options[Ecs := Bool(true)]));
    } else {
      SkipCheck(v, f, 4);
      RestOfUserAgent(v, f);
    }
  }

  /** Running the table in order is reading it by type. */
  lemma TableByType(v: Version, f: Flat)
    ensures RunChecks(v, f, Table) == Adapted(v, f)
  {
    if f.name.UserAgent? {
      UserAgentEntries(v, f);
    } else if Lo(f.name) == 9 {
      NoEntry(v, f);
    } else {
      EntriesOf(f.name, Lo(f.name));
      SingleEntry(v, f, AdaptConfig(Table[Lo(f.name)], f));
    }
  }

  // ---------- what a version accepts ----------

  /** The type and the options are ones that Elasticsearch `v` understands, as far as the table knows. */
  predicate Accepts(v: Version, f: Flat) {
    && (Before(v, 7, 13) ==> !f.name.NetworkDirection? && !f.name.RegisteredDomain? && !ConvertsIp(f))
    && (Before(v, 7, 12) ==> !f.name.CommunityId? && !f.name.UriParts?)
    && (Before(v, 7, 10) ==> !(f.name.Append? && HasBool(f.options, AllowDuplicates)))
    && (Before(v, 7, 9) ==> !(f.name.SetProc? && HasBool(f.options, IgnoreEmptyValue)))
    && (Before(v, 7, 9) ==> !HasText(f.options, Description) && !IsNil(f.name))
    && (Before(v, 7, 0) && f.name.UserAgent? ==> !Before(v, 6, 7) && Lookup(f.options, Ecs) == Some(Bool(true)))
  }

  /** The table fails on exactly these. */
  predicate Refuses(v: Version, f: Flat) {
    || (f.name.UserAgent? && Before(v, 6, 7))
    || (ConvertsIp(f) && Field !in f.options && Before(v, 7, 13))
  }

  /** The table deletes exactly these. */
  predicate Deletes(v: Version, f: Flat) {
    || (Before(v, 7, 13) && (f.name.NetworkDirection? || f.name.RegisteredDomain?))
    || (Before(v, 7, 12) && (f.name.CommunityId? || f.name.UriParts?))
    || (Before(v, 7, 9) && IsNil(f.name))
  }

  lemma AdaptedOutcome(v: Version, f: Flat)
    ensures Adapted(v, f).Err? <==> Refuses(v, f)
    ensures Adapted(v, f) == Ok(None) <==> Deletes(v, f)
  {
  }

  /** What the table lets through is accepted, and keeps clear of the nested options. */
  lemma AdaptedAccepted(v: Version, f: Flat)
    requires Adapted(v, f).Ok? && Adapted(v, f).value.Some?
    ensures var g := Adapted(v, f).value.value;
            && Accepts(v, g)
            && (g.name == f.name || (f.name.Convert? && g.name.Grok?))
            && (Clean(f) ==> Clean(g))
  {
    AdaptedNames(v, f);
    OptionsStayOut(f.options);
  }

  lemma AdaptedNames(v: Version, f: Flat)
    requires Adapted(v, f).Ok? && Adapted(v, f).value.Some?
    ensures var g := Adapted(v, f).value.value;
            && (g.name == f.name || (f.name.Convert? && g.name.Grok?))
            && (Clean(f) ==> Clean(g))
  {
  }

  /** What is accepted is let through unchanged. */
  lemma AcceptedUnchanged(v: Version, f: Flat)
    requires Accepts(v, f)
    ensures Adapted(v, f) == Ok(Some(f))
  {
    if f.name.UserAgent? && Before(v, 7, 0) {
      assert f.options[Ecs := Bool(true)] == f.options;
    }
  }

  /** Once the options of an older version have been taken out they stay out. */
  lemma OptionsStayOut(o: Fields)
    ensures !HasBool(WithoutDuplicates(o), AllowDuplicates)
    ensures !HasBool(WithoutEmptyValue(o), IgnoreEmptyValue)
    ensures !HasText(WithoutDescription(o), Description)
    ensures !HasBool(WithoutDescription(WithoutDuplicates(o)), AllowDuplicates)
    ensures !HasBool(WithoutDescription(WithoutEmptyValue(o)), IgnoreEmptyValue)
  {
  }

  /** Setting `ecs` and dropping the description do not disturb each other, and setting it twice is setting it once. */
  lemma EcsStays(o: Fields)
    ensures o[Ecs := Bool(true)][Ecs := Bool(true)] == o[Ecs := Bool(true)]
    ensures WithoutDescription(o)[Ecs := Bool(true)] == WithoutDescription(o[Ecs := Bool(true)])
    ensures !HasText(WithoutDescription(o), Description)
  {
  }

  /** Adapting to `w` first and then to `v` gives what adapting to `v` gives. */
  predicate TwoSteps(v: Version, w: Version, f: Flat) {
    && Adapted(w, f).Ok?
    && (Adapted(w, f).value.None? ==> Adapted(v, f) == Ok(None))
    && (Adapted(w, f).value.Some? ==> Adapted(v, Adapted(w, f).value.value) == Adapted(v, f))
  }

  lemma AppendTwoSteps(v: Version, w: Version, f: Flat)
    requires AtMost(v, w) && f.name.Append?
    ensures TwoSteps(v, w, f)
  {
    OptionsStayOut(f.options);
  }

  lemma SetTwoSteps(v: Version, w: Version, f: Flat)
    requires AtMost(v, w) && f.name.SetProc?
    ensures TwoSteps(v, w, f)
  {
    OptionsStayOut(f.options);
  }

  lemma UserAgentTwoSteps(v: Version, w: Version, f: Flat)
    requires AtMost(v, w) && f.name.UserAgent? && Adapted(v, f).Ok?
    ensures TwoSteps(v, w, f)
  {
    EcsStays(f.options);
    EcsStays(f.options[Ecs := Bool(true)]);
  }

  lemma ConvertTwoSteps(v: Version, w: Version, f: Flat)
    requires AtMost(v, w) && f.name.Convert? && Adapted(v, f).Ok?
    ensures TwoSteps(v, w, f)
  {
    if ConvertsIp(f) {
      if Before(w, 7, 13) {
        var g := IpAsGrok(f).value;
        assert Adapted(w, f) == Described(w, g) && Adapted(v, f) == Described(v, g);
      }
    } else {
      assert Adapted(w, f) == Described(w, f);
    }
  }

  lemma OtherTwoSteps(v: Version, w: Version, f: Flat)
    requires AtMost(v, w) && !f.name.Append? && !f.name.SetProc? && !f.name.UserAgent? && !f.name.Convert?
    ensures TwoSteps(v, w, f)
  {
  }

  /** Going through a newer version first makes no difference. */
  lemma AdaptedInTwoSteps(v: Version, w: Version, f: Flat)
    requires AtMost(v, w) && Adapted(v, f).Ok?
    ensures TwoSteps(v, w, f)
  {
    match f.name
    case Append => AppendTwoSteps(v, w, f);
    case SetProc => SetTwoSteps(v, w, f);
    case UserAgent => UserAgentTwoSteps(v, w, f);
    case Convert => ConvertTwoSteps(v, w, f);
    case _ => OtherTwoSteps(v, w, f);
  }

  predicate SameExcept(o: Fields, t: Fields, keys: set<Word>) {
    o - keys == t - keys
  }

  /**
  The adapters touch only the options they are about: an existing guard of a `set` stays, the guard of an `append` is
  only extended and only when duplicates were forbidden, and an ip conversion becomes a grok on the same field.
  */
  lemma AdaptersKeepTheRest(f: Flat)
    ensures SameExcept(f.options, WithoutEmptyValue(f.options), {IgnoreEmptyValue, If})
    ensures HasText(f.options, If) ==> Lookup(WithoutEmptyValue(f.options), If) == Some(f.options[If])
    ensures SameExcept(f.options, WithoutDuplicates(f.options), {AllowDuplicates, If})
    ensures Lookup(f.options, AllowDuplicates) != Some(Bool(false)) ==>
              Lookup(WithoutDuplicates(f.options), If) == Lookup(f.options, If)
    ensures HasText(f.options, If) ==>
              HasText(WithoutDuplicates(f.options), If) && f.options[If].s <= WithoutDuplicates(f.options)[If].s
    ensures ConvertsIp(f) && Field in f.options ==>
              && IpAsGrok(f).Ok? && IpAsGrok(f).value.name.Grok?
              && SameExcept(f.options, IpAsGrok(f).value.options, {Type, TargetField, PatternsKey})
              && Type !in IpAsGrok(f).value.options && TargetField !in IpAsGrok(f).value.options
              && var target := if TargetField in f.options then f.options[TargetField] else f.options[Field];
                 IpAsGrok(f).value.options[PatternsKey] == Strings(["^%{IP:" + Show(target) + "}$"])
  {
    EmptyValueKeeps(f.options);
    DuplicatesKeep(f.options);
  }

  lemma EmptyValueKeeps(o: Fields)
    ensures SameExcept(o, WithoutEmptyValue(o), {IgnoreEmptyValue, If})
    ensures HasText(o, If) ==> Lookup(WithoutEmptyValue(o), If) == Some(o[If])
  {
  }

  lemma DuplicatesKeep(o: Fields)
    ensures SameExcept(o, WithoutDuplicates(o), {AllowDuplicates, If})
    ensures Lookup(o, AllowDuplicates) != Some(Bool(false)) ==> Lookup(WithoutDuplicates(o), If) == Lookup(o, If)
    ensures HasText(o, If) ==> HasText(WithoutDuplicates(o), If) && o[If].s <= WithoutDuplicates(o)[If].s
  {
    if HasText(o, If) && WithoutDuplicates(o)[If] != o[If] {
      var rest := o - {AllowDuplicates};
      GuardExtends(o[If].s, NullSafe(rest[Field].s), Path(rest[ValueKey].s));
    }
  }

  lemma GuardExtends(guard: string, field: string, value: string)
    ensures guard <= DuplicateGuard(guard, field, value)
  {
  }

  // ---------- versions ----------

  /** Versions are totally ordered, by major, then minor, then bugfix. */
  lemma VersionsAreOrdered(u: Version, v: Version, w: Version)
    ensures !LessThan(v, v)
    ensures u == v || LessThan(u, v) || LessThan(v, u)
    ensures LessThan(u, v) && LessThan(v, w) ==> LessThan(u, w)
  {
  }

  /** The releases before a minor one are those of earlier majors and of earlier minors of its own major. */
  lemma BeforeIff(v: Version, major: int, minor: int)
    requires v.bugfix >= 0
    ensures Before(v, major, minor) <==> v.major < major || (v.major == major && v.minor < minor)
  {
  }
}
