/** Template selection, `filterSidecar` (webhook.go:182-196): keep the template items whose
    selector equals the pod's `injector` label and concatenate their containers. */
module Selection {
  import opened Wrappers
  import opened Objects

  /** An item applies iff the labels carry key `injector` with exactly the item's selector
      (case-sensitive; a missing key never matches, even an empty selector). */
  predicate Matches<C>(labels: map<string, string>, item: TemplateItem<C>)
  {
    InjectorLabel in labels && labels[InjectorLabel] == item.injector
  }

  /** The containers of the matching items, in item order and, within an item, in its own order. */
  function Selected<C>(labels: map<string, string>, items: seq<TemplateItem<C>>): (res: seq<C>)
    decreases |items|
  {
    if |items| == 0 then []
    else
      var last := items[|items| - 1];
      Selected(labels, items[..|items| - 1]) + (if Matches(labels, last) then last.containers else [])
  }

  /** Selection distributes over concatenation of the template list: order is preserved. */
  lemma {:induction false} SelectedAppend<C>(labels: map<string, string>, a: seq<TemplateItem<C>>, b: seq<TemplateItem<C>>)
    ensures Selected(labels, a + b) == Selected(labels, a) + Selected(labels, b)
    decreases |b|
  {
    if |b| > 0 {
      var b' := b[..|b| - 1];
      assert (a + b)[..|a + b| - 1] == a + b';
      assert (a + b)[|a + b| - 1] == b[|b| - 1];
      SelectedAppend(labels, a, b');
    } else {
      assert a + b == a;
    }
  }

  /** A container is selected iff some matching item carries it. */
  lemma {:induction false} SelectedMember<C>(labels: map<string, string>, items: seq<TemplateItem<C>>, x: C)
    ensures x in Selected(labels, items)
            <==> exists i :: 0 <= i < |items| && Matches(labels, items[i]) && x in items[i].containers
    decreases |items|
  {
    if |items| > 0 {
      var init := items[..|items| - 1];
      SelectedMember(labels, init, x);
      if x in Selected(labels, items) {
        if x !in Selected(labels, init) {
          var k := |items| - 1;
          assert Matches(labels, items[k]) && x in items[k].containers;
        } else {
          var i :| 0 <= i < |init| && Matches(labels, init[i]) && x in init[i].containers;
          assert items[i] == init[i];
        }
      }
      if exists i :: 0 <= i < |items| && Matches(labels, items[i]) && x in items[i].containers {
        var i :| 0 <= i < |items| && Matches(labels, items[i]) && x in items[i].containers;
        if i < |init| {
          assert init[i] == items[i];
        }
      }
    }
  }

  /** Nothing is selected iff every matching item has an empty container list. */
  lemma {:induction false} SelectedEmpty<C>(labels: map<string, string>, items: seq<TemplateItem<C>>)
    ensures |Selected(labels, items)| == 0
            <==> forall i :: 0 <= i < |items| && Matches(labels, items[i]) ==> |items[i].containers| == 0
    decreases |items|
  {
    if |items| > 0 {
      var init := items[..|items| - 1];
      SelectedEmpty(labels, init);
      assert forall i :: 0 <= i < |init| ==> init[i] == items[i];
    }
  }

  /** A pod without an `injector` label gets no sidecars, whatever the templates say. */
  lemma NoInjectorLabelSelectsNothing<C>(labels: map<string, string>, items: seq<TemplateItem<C>>)
    requires InjectorLabel !in labels
    ensures Selected(labels, items) == []
  {
    SelectedEmpty(labels, items);
  }

  /** `filterSidecar`: an indexed loop appending the containers of each matching item.
      Its error result is always nil. */
  method FilterSidecar<C>(meta: Meta, st: Template<C>) returns (res: seq<C>, err: Option<string>)
    ensures res == Selected(OrEmpty(meta.labels), st.items)
    ensures forall x :: x in res <==> exists i :: 0 <= i < |st.items| && Matches(OrEmpty(meta.labels), st.items[i]) && x in st.items[i].containers
    ensures err == None
  {
    res := [];
    var i := 0;
    while i < |st.items|
      invariant 0 <= i <= |st.items|
      invariant res == Selected(OrEmpty(meta.labels), st.items[..i])
    {
      var labels := OrEmpty(meta.labels);
      if !(InjectorLabel in labels) || labels[InjectorLabel] != st.items[i].injector {
        // skip: this item's selector does not match
      } else {
        res := res + st.items[i].containers;
      }
      assert st.items[..i + 1][..i] == st.items[..i];
      i := i + 1;
    }
    assert st.items[..i] == st.items;
    forall x ensures x in res <==> exists j :: 0 <= j < |st.items| && Matches(OrEmpty(meta.labels), st.items[j]) && x in st.items[j].containers {
      SelectedMember(OrEmpty(meta.labels), st.items, x);
    }
    err := None;
  }
}
