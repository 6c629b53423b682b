/// The renderer replacement in `get_form_collection`: every form nested in a
/// form collection is given a renderer, the framework's renderer built from
/// the CSS classes registered under the form's dotted path, or the default
/// renderer when none are registered.
module HolderRenderers {
  import opened CssClasses

  /// The renderer a form is given: the collection's renderer class built with
  /// the given attributes, or Django's default renderer.
  datatype Renderer = Custom(attrs: map<string, CssValue>) | DefaultRenderer

  /// A form inside a collection; `traverse_holders` assigns its renderer.
  class Form {
    var renderer: Renderer

    constructor ()
      ensures renderer == DefaultRenderer
    {
      renderer := DefaultRenderer;
    }
  }

  /// A declared holder: a form, or a nested collection with its own declared
  /// holders (the ones that have `declared_holders`).
  datatype Holder = FormHolder(form: Form) | CollectionHolder(declared: seq<Entry>)

  /// One item of a `declared_holders` dict, in declaration order.
  datatype Entry = Entry(name: string, holder: Holder)

  /// `f'{path}.{name}' if path else name`
  function Key(path: string, name: string): (key: string)
    ensures path != "" ==> |key| > |path| && key[..|path|] == path && key[|path|] == '.' && key[|path| + 1..] == name
    ensures path == "" ==> key == name
  {
    if path == "" then name else path + "." + name
  }

  /// The forms reachable from the declared holders, with their dotted keys, in
  /// traversal order.
  function Leaves(declared: seq<Entry>, path: string): seq<(string, Form)>
    decreases declared
  {
    if declared == [] then []
    else Leaves(declared[..|declared| - 1], path) + EntryLeaves(declared[|declared| - 1], path)
  }

  /// The forms reachable from one declared holder: the form itself, or those
  /// of the nested collection under the extended path.
  function EntryLeaves(entry: Entry, path: string): seq<(string, Form)>
    decreases entry
  {
    match entry.holder
    case FormHolder(f) => [(Key(path, entry.name), f)]
    case CollectionHolder(children) => Leaves(children, Key(path, entry.name))
  }

  function Forms(leaves: seq<(string, Form)>): set<Form> {
    set i | 0 <= i < |leaves| :: leaves[i].1
  }

  /// No form is reachable twice.
  predicate DistinctForms(leaves: seq<(string, Form)>) {
    forall i, j :: 0 <= i < j < |leaves| ==> leaves[i].1 != leaves[j].1
  }

  /// The renderer a form with this key must end up with.
  function Expected(key: string, cssClasses: FrameworkClasses<CssValue>): Renderer {
    if key in cssClasses then Custom(cssClasses[key]) else DefaultRenderer
  }

  lemma {:induction false} LeavesAppend(a: seq<Entry>, b: seq<Entry>, path: string)
    ensures Leaves(a + b, path) == Leaves(a, path) + Leaves(b, path)
    decreases |b|
  {
    if b == [] {
      assert a + b == a;
    } else {
      var b' := b[..|b| - 1];
      assert (a + b)[..|a + b| - 1] == a + b';
      LeavesAppend(a, b', path);
    }
  }

  /// Every form among the leaves has the renderer its key calls for.
  predicate Rendered(leaves: seq<(string, Form)>, cssClasses: FrameworkClasses<CssValue>)
    reads Forms(leaves)
  {
    forall j :: 0 <= j < |leaves| ==> leaves[j].1.renderer == Expected(leaves[j].0, cssClasses)
  }

  /// The leaves of the first `i` holders, of holder `i`, and of the rest.
  lemma LeavesAround(declared: seq<Entry>, path: string, i: nat)
    requires i < |declared|
    ensures Leaves(declared[..i + 1], path) == Leaves(declared[..i], path) + EntryLeaves(declared[i], path)
    ensures Leaves(declared, path)
              == Leaves(declared[..i], path) + EntryLeaves(declared[i], path) + Leaves(declared[i + 1..], path)
  {
    assert declared[..i + 1][..i] == declared[..i];
    LeavesAppend(declared[..i + 1], declared[i + 1..], path);
    assert declared[..i + 1] + declared[i + 1..] == declared;
  }

  /// In a list of distinct forms, a middle part is distinct, disjoint from
  /// what comes before it, and included in the whole.
  lemma DistinctMiddle(before: seq<(string, Form)>, middle: seq<(string, Form)>, after: seq<(string, Form)>)
    requires DistinctForms(before + middle + after)
    ensures DistinctForms(middle)
    ensures Forms(before) !! Forms(middle)
    ensures Forms(middle) <= Forms(before + middle + after)
  {
    var all := before + middle + after;
    assert forall j :: 0 <= j < |middle| ==> middle[j] == all[|before| + j];
    assert forall j :: 0 <= j < |before| ==> before[j] == all[j];
  }

  lemma RenderedAppend(a: seq<(string, Form)>, b: seq<(string, Form)>, cssClasses: FrameworkClasses<CssValue>)
    requires Rendered(a, cssClasses) && Rendered(b, cssClasses)
    ensures Rendered(a + b, cssClasses)
  {
    forall j | 0 <= j < |a + b|
      ensures (a + b)[j].1.renderer == Expected((a + b)[j].0, cssClasses)
    {
      if j >= |a| {
        assert (a + b)[j] == b[j - |a|];
      }
    }
  }

  /// `traverse_holders`: recurse into nested collections; give each form the
  /// renderer its dotted key calls for.
  method TraverseHolders(declared: seq<Entry>, path: string, cssClasses: FrameworkClasses<CssValue>)
    requires DistinctForms(Leaves(declared, path))
    modifies Forms(Leaves(declared, path))
    ensures Rendered(Leaves(declared, path), cssClasses)
    decreases declared
  {
    for i := 0 to |declared|
      invariant Rendered(Leaves(declared[..i], path), cssClasses)
    {
      var done := Leaves(declared[..i], path);
      var here := EntryLeaves(declared[i], path);
      LeavesAround(declared, path, i);
      DistinctMiddle(done, here, Leaves(declared[i + 1..], path));
      var entry := declared[i];
      var key := Key(path, entry.name);
      assert Rendered(done, cssClasses);
      match entry.holder {
        case CollectionHolder(children) =>
          assert here == Leaves(children, key);
          TraverseHolders(children, key, cssClasses);
          assert Rendered(done, cssClasses);
        case FormHolder(form) =>
          assert form == here[0].1;
          assert form in Forms(here);
          form.renderer := if key in cssClasses then Custom(cssClasses[key]) else DefaultRenderer;
          assert Rendered(done, cssClasses);
      }
      assert Rendered(done, cssClasses);
      assert Rendered(here, cssClasses);
      RenderedAppend(done, here, cssClasses);
    }
    assert declared[..|declared|] == declared;
  }
}
