/**
Lists of dynamic templates.  Recording one template before others, against recording it behind them: when the lists come
out the same, as far as they are looked at.
*/
module TemplateLists {
  import opened Names
  import opened Options
  import opened Templates
  import opened TemplateMerging
  import opened TemplateIndependence

  // ---------- adding templates ----------

  /** The first of `more` that is not known. */
  function FirstNew(ts: seq<Template>, more: seq<Template>): Option<Template> {
    if more == [] then None else if Known(ts, more[0]) then FirstNew(ts, more[1..]) else Some(more[0])
  }

  lemma {:induction false} AddAllCons(ts: seq<Template>, t: Template, more: seq<Template>)
    ensures AddAll(ts, [t] + more) == AddAll(AddOne(ts, t), more)
  {
    var all := [t] + more;
    if more == [] {
      assert all == [t] && all[..0] == [];
      assert AddAll(ts, []) == ts;
    } else {
      assert all[..|all| - 1] == [t] + more[..|more| - 1];
      AddAllCons(ts, t, more[..|more| - 1]);
    }
  }

  lemma {:induction false} AddAllExtends(ts: seq<Template>, more: seq<Template>)
    ensures ts <= AddAll(ts, more)
  {
    if more != [] {
      AddAllExtends(ts, more[..|more| - 1]);
    }
  }

  /** Nothing is added, or first what is new. */
  lemma {:induction false} AddAllFirst(ts: seq<Template>, more: seq<Template>)
    ensures FirstNew(ts, more).None? ==> AddAll(ts, more) == ts
    ensures FirstNew(ts, more).Some? ==> ts + [FirstNew(ts, more).value] <= AddAll(ts, more)
  {
    if more != [] {
      assert more == [more[0]] + more[1..];
      AddAllCons(ts, more[0], more[1..]);
      AddAllFirst(ts, more[1..]);
      if !Known(ts, more[0]) {
        AddAllExtends(ts + [more[0]], more[1..]);
      }
    }
  }

  /** Adding what is new first beforehand makes no difference. */
  lemma {:induction false} AddFirstBefore(ts: seq<Template>, more: seq<Template>)
    requires FirstNew(ts, more).Some?
    ensures AddAll(ts + [FirstNew(ts, more).value], more) == AddAll(ts, more)
  {
    var t, rest := more[0], more[1..];
    var x := FirstNew(ts, more).value;
    assert more == [t] + rest;
    AddAllCons(ts, t, rest);
    AddAllCons(ts + [x], t, rest);
    if Known(ts, t) {
      KnownBefore(ts, x, t);
      AddFirstBefore(ts, rest);
    } else {
      assert SameTemplate((ts + [x])[|ts|], t);
    }
  }

  lemma KnownBefore(ts: seq<Template>, x: Template, t: Template)
    requires Known(ts, t)
    ensures Known(ts + [x], t)
  {
    var i :| 0 <= i < |ts| && SameTemplate(ts[i], t);
    assert (ts + [x])[i] == ts[i];
  }

  lemma {:induction false} NothingNewAfter(ts: seq<Template>, x: Template, more: seq<Template>)
    requires FirstNew(ts, more).None?
    ensures AddAll(ts + [x], more) == ts + [x]
  {
    if more != [] {
      assert more == [more[0]] + more[1..];
      AddAllCons(ts + [x], more[0], more[1..]);
      KnownBefore(ts, x, more[0]);
      NothingNewAfter(ts, x, more[1..]);
    }
  }

  // ---------- what is seen of templates ----------

  /** Only the keys; or what the templates hold when `out` stands at `place`. */
  datatype View = Keys | In(place: Path, out: Mapping)

  function SeenOne(view: View, t: Template): Template {
    match view
    case Keys => t.(mapping := map[], home := None)
    case In(place, out) => FreezeOne(t, place, out, place)
  }

  function Seen(view: View, ts: seq<Template>): seq<Template> {
    seq(|ts|, i requires 0 <= i < |ts| => SeenOne(view, ts[i]))
  }

  /** After an error only the keys of templates are looked at. */
  function ViewOf(place: Path, o: Outcome): View {
    if o.error.Some? then Keys else In(place, o.out)
  }

  /**
  What is generated is the same: the error, the analyzers, the default fields and the keys of templates, and without an
  error also the output and what the templates hold.
  */
  predicate SameGenerated(place: Path, a: Outcome, b: Outcome) {
    && a.error == b.error && Close(a.shared, b.shared) && (a.error.None? ==> a.out == b.out)
    && Seen(ViewOf(place, a), a.shared.templates) == Seen(ViewOf(place, b), b.shared.templates)
  }

  lemma SameIsSameGenerated(place: Path, a: Outcome, b: Outcome)
    requires Same(a, b)
    ensures SameGenerated(place, a, b)
  {
    SeenIsRecorded(a.shared.templates, b.shared.templates);
  }

  lemma SeenKnown(view: View, ts: seq<Template>, t: Template)
    ensures Known(Seen(view, ts), SeenOne(view, t)) <==> Known(ts, t)
  {
    var seen := Seen(view, ts);
    if Known(ts, t) {
      var i :| 0 <= i < |ts| && SameTemplate(ts[i], t);
      assert SameTemplate(seen[i], SeenOne(view, t));
    }
    if Known(seen, SeenOne(view, t)) {
      var i :| 0 <= i < |seen| && SameTemplate(seen[i], SeenOne(view, t));
      assert SameTemplate(ts[i], t);
    }
  }

  lemma SeenAfterOne(view: View, ts: seq<Template>, t: Template)
    ensures Seen(view, AddOne(ts, t)) == AddOne(Seen(view, ts), SeenOne(view, t))
  {
    SeenKnown(view, ts, t);
  }

  lemma {:induction false} SeenAfterAdding(view: View, ts: seq<Template>, more: seq<Template>)
    ensures Seen(view, AddAll(ts, more)) == AddAll(Seen(view, ts), Seen(view, more))
  {
    if more != [] {
      var init, last := more[..|more| - 1], more[|more| - 1];
      SeenAfterAdding(view, ts, init);
      SeenAfterOne(view, AddAll(ts, init), last);
      var seen := Seen(view, more);
      assert seen[..|seen| - 1] == Seen(view, init);
    }
  }

  lemma SeenIsRecorded(a: seq<Template>, b: seq<Template>)
    ensures Seen(Keys, a) == Seen(Keys, b) <==> Recorded(a) == Recorded(b)
  {
    if Seen(Keys, a) == Seen(Keys, b) {
      assert |a| == |Seen(Keys, a)| == |Seen(Keys, b)| == |b|;
      forall i | 0 <= i < |a| ensures Recorded(a)[i] == Recorded(b)[i] {
        assert Seen(Keys, a)[i] == Seen(Keys, b)[i];
      }
    }
    if Recorded(a) == Recorded(b) {
      assert |a| == |Recorded(a)| == |Recorded(b)| == |b|;
      forall i | 0 <= i < |a| ensures Seen(Keys, a)[i] == Seen(Keys, b)[i] {
        assert Recorded(a)[i] == Recorded(b)[i];
      }
    }
  }

  // ---------- what becomes of the templates ----------

  /** The template `t` of the first group is what one group would record first. */
  predicate ComesFirst(ts: seq<Template>, t: Template, more: seq<Template>, last: Option<Template>) {
    || Known(ts, t)
    || FirstNew(ts, more) == Some(t)
    || (FirstNew(ts, more).None? && last == Some(t))
  }

  function AddLast(ts: seq<Template>, last: Option<Template>): seq<Template> {
    if last.None? then ts else AddOne(ts, last.value)
  }

  /**
  Recording `t` before what the second group has to add, against recording `last` behind it: the same if and only if `t`
  comes first in any case and the second group adds the same on top of it.
  */
  lemma TemplatesSameIff(
    ts: seq<Template>, t: Template, alone: seq<Template>, own: seq<Template>, last: Option<Template>)
    requires last.Some? ==> SameTemplate(last.value, t)
    ensures AddAll(AddOne(ts, t), alone) == AddLast(AddAll(ts, own), last) <==>
            ComesFirst(ts, t, own, last) && AddAll(AddOne(ts, t), alone) == AddAll(AddOne(ts, t), own)
  {
    if Known(ts, t) {
      AddAllKnows(ts, own, t);
      if last.Some? { SameKnown(AddAll(ts, own), t, last.value); }
    } else if FirstNew(ts, own).Some? {
      SomethingNew(ts, t, alone, own, last);
    } else {
      NothingNew(ts, t, alone, own, last);
    }
  }

  lemma SomethingNew(ts: seq<Template>, t: Template, alone: seq<Template>, own: seq<Template>, last: Option<Template>)
    requires (last.Some? ==> SameTemplate(last.value, t)) && !Known(ts, t) && FirstNew(ts, own).Some?
    ensures AddAll(ts + [t], alone) == AddLast(AddAll(ts, own), last) <==>
            FirstNew(ts, own) == Some(t) && AddAll(ts + [t], alone) == AddAll(ts + [t], own)
  {
    var x := FirstNew(ts, own).value;
    AddAllExtends(ts + [t], alone);
    AddAllFirst(ts, own);
    var a, b := AddAll(ts + [t], alone), AddLast(AddAll(ts, own), last);
    assert a[|ts|] == (ts + [t])[|ts|] == t;
    assert b[|ts|] == AddAll(ts, own)[|ts|] == (ts + [x])[|ts|] == x;
    if x == t {
      AddFirstBefore(ts, own);
      AddedIsKnown(ts, t);
      AddAllKnows(ts + [t], own, t);
      if last.Some? { SameKnown(AddAll(ts, own), t, last.value); }
    }
  }

  lemma NothingNew(ts: seq<Template>, t: Template, alone: seq<Template>, own: seq<Template>, last: Option<Template>)
    requires (last.Some? ==> SameTemplate(last.value, t)) && !Known(ts, t) && FirstNew(ts, own).None?
    ensures AddAll(ts + [t], alone) == AddLast(AddAll(ts, own), last) <==>
            last == Some(t) && AddAll(ts + [t], alone) == AddAll(ts + [t], own)
  {
    AddAllExtends(ts + [t], alone);
    AddAllFirst(ts, own);
    NothingNewAfter(ts, t, own);
    var a := AddAll(ts + [t], alone);
    assert a[|ts|] == (ts + [t])[|ts|] == t;
    if last.Some? {
      if Known(ts, last.value) { SameKnown(ts, last.value, t); }
      assert AddLast(ts, last) == ts + [last.value];
      assert (ts + [last.value])[|ts|] == last.value;
    }
  }

  /** With other templates in front as well. */
  lemma ListsSameIff(
    view: View, two: seq<Template>, one: seq<Template>, t: Template,
    alone: seq<Template>, own: seq<Template>, last: Option<Template>)
    requires |two| == |one| && (last.Some? ==> SameTemplate(last.value, t))
    ensures Seen(view, AddAll(AddOne(two, t), alone)) == Seen(view, AddLast(AddAll(one, own), last)) <==>
            SeenCondition(view, two, one, t, alone, own, last)
  {
    SeenAfterAdding(view, AddOne(two, t), alone);
    SeenAfterOne(view, two, t);
    SeenAfterAdding(view, one, own);
    if last.Some? { SeenAfterOne(view, AddAll(one, own), last.value); }
    PrefixesSameIff(
      Seen(view, two), Seen(view, one), SeenOne(view, t), Seen(view, alone), Seen(view, own), SeenLast(view, last));
  }

  /** The same in front, the template of the first group comes first in any case, and the rest on top is the same. */
  predicate Condition(
    two: seq<Template>, one: seq<Template>, t: Template,
    alone: seq<Template>, own: seq<Template>, last: Option<Template>) {
    two == one && ComesFirst(one, t, own, last) && AddAll(AddOne(one, t), alone) == AddAll(AddOne(one, t), own)
  }

  function SeenLast(view: View, last: Option<Template>): Option<Template> {
    if last.Some? then Some(SeenOne(view, last.value)) else None
  }

  predicate SeenCondition(
    view: View, two: seq<Template>, one: seq<Template>, t: Template,
    alone: seq<Template>, own: seq<Template>, last: Option<Template>) {
    Condition(
      Seen(view, two), Seen(view, one), SeenOne(view, t), Seen(view, alone), Seen(view, own), SeenLast(view, last))
  }

  lemma PrefixesSameIff(
    two: seq<Template>, one: seq<Template>, t: Template,
    alone: seq<Template>, own: seq<Template>, last: Option<Template>)
    requires |two| == |one| && (last.Some? ==> SameTemplate(last.value, t))
    ensures AddAll(AddOne(two, t), alone) == AddLast(AddAll(one, own), last) <==>
            Condition(two, one, t, alone, own, last)
  {
    var x, y := AddAll(AddOne(two, t), alone), AddLast(AddAll(one, own), last);
    AddAllExtends(AddOne(two, t), alone);
    AddAllExtends(one, own);
    assert x[..|two|] == two && y[..|one|] == one;
    if two == one { TemplatesSameIff(one, t, alone, own, last); }
  }

  /** The first of `more` that is not known, as far as it is looked at. */
  predicate FirstIs(view: View, ts: seq<Template>, t: Template, more: seq<Template>) {
    var first := FirstNew(ts, more);
    first.Some? && SeenOne(view, first.value) == SeenOne(view, t)
  }

  lemma {:induction false} FirstNewSeen(view: View, ts: seq<Template>, front: seq<Template>, more: seq<Template>)
    requires forall t: Template :: Known(front, t) <==> Known(ts, t)
    ensures var first := FirstNew(ts, more);
            FirstNew(Seen(view, front), Seen(view, more)) ==
            if first.Some? then Some(SeenOne(view, first.value)) else None
  {
    if more != [] {
      SeenKnown(view, front, more[0]);
      var seen := Seen(view, more);
      assert seen[0] == SeenOne(view, more[0]) && seen[1..] == Seen(view, more[1..]);
      FirstNewSeen(view, ts, front, more[1..]);
    }
  }

  lemma ComesFirstSeen(
    view: View, ts: seq<Template>, front: seq<Template>, t: Template, more: seq<Template>, last: Option<Template>)
    requires forall u: Template :: Known(front, u) <==> Known(ts, u)
    ensures ComesFirst(Seen(view, front), SeenOne(view, t), Seen(view, more), SeenLast(view, last)) <==>
            || Known(ts, t) || FirstIs(view, ts, t, more)
            || (FirstNew(ts, more).None? && SeenLast(view, last) == Some(SeenOne(view, t)))
  {
    SeenKnown(view, front, t);
    FirstNewSeen(view, ts, front, more);
  }
}
