/// The CSS classes a demo view hands to its form renderer: the framework's
/// entries for every mode (`'*'`), overridden key by key by the entries of
/// the view's own mode.
module CssClasses {
  import opened Values

  /// One framework's entries: mode (or `'*'`) to renderer attribute to value.
  type FrameworkClasses<V> = map<string, map<string, V>>

  /// `entries.get(mode, {})`, where the mode may be `None`.
  function ModeEntries<V>(entries: FrameworkClasses<V>, mode: Option<string>): map<string, V> {
    if mode.Some? && mode.value in entries then entries[mode.value] else map[]
  }

  /// `get_css_classes`: copy the `'*'` entries, then `update` them with the
  /// mode's entries. Looking up an unknown framework is a `KeyError`, here
  /// `None`.
  function GetCssClasses<V>(table: map<string, FrameworkClasses<V>>, framework: string, mode: Option<string>)
    : (r: Option<map<string, V>>)
    ensures r.None? <==> framework !in table
    ensures r.Some? ==>
              var star := ModeEntries(table[framework], Some("*"));
              var own := ModeEntries(table[framework], mode);
              && r.value.Keys == star.Keys + own.Keys
              && (forall k :: k in own ==> r.value[k] == own[k])
              && (forall k :: k in star && k !in own ==> r.value[k] == star[k])
  {
    if framework !in table then None
    else
      var css := ModeEntries(table[framework], Some("*"));
      var css' := css + ModeEntries(table[framework], mode);
      Some(css')
  }

  /// Without entries of its own mode (no URL name, or a mode absent from the
  /// table) a view gets exactly the framework's `'*'` entries.
  lemma NoModeEntriesGivesDefaults<V>(table: map<string, FrameworkClasses<V>>, framework: string, mode: Option<string>)
    requires framework in table
    requires mode.None? || mode.value !in table[framework]
    ensures GetCssClasses(table, framework, mode) == Some(ModeEntries(table[framework], Some("*")))
  {
    var css := ModeEntries(table[framework], Some("*"));
    assert css + map[] == css;
  }

  /// Without `'*'` entries a view gets exactly its mode's entries.
  lemma NoDefaultsGivesModeEntries<V>(table: map<string, FrameworkClasses<V>>, framework: string, mode: Option<string>)
    requires framework in table && "*" !in table[framework]
    ensures GetCssClasses(table, framework, mode) == Some(ModeEntries(table[framework], mode))
  {
    var own := ModeEntries(table[framework], mode);
    assert map[] + own == own;
  }

  /// The value of a renderer attribute: one class string, or class strings per
  /// field name.
  datatype CssValue = Classes(s: string) | PerField(fields: map<string, string>)

  /// The merge is shallow: in the bootstrap "horizontal" mode the per-field
  /// classes of `'*'` are replaced as a whole by one string, the button
  /// classes are overridden, and the fieldset classes of `'*'` are kept.
  lemma HorizontalBootstrapClasses()
    ensures
      var star := map[
        "field_css_classes" := PerField(map["*" := "mb-2", "submit" := "d-grid col-3", "reset" := "d-grid col-3"]),
        "fieldset_css_classes" := Classes("border p-3"),
        "button_css_classes" := Classes("mt-4")];
      var horizontal := map[
        "field_css_classes" := Classes("row mb-3"),
        "label_css_classes" := Classes("col-sm-3"),
        "control_css_classes" := Classes("col-sm-9"),
        "button_css_classes" := Classes("offset-sm-3")];
      var r := GetCssClasses(map["bootstrap" := map["*" := star, "horizontal" := horizontal]],
                             "bootstrap", Some("horizontal"));
      && r.Some?
      && r.value["field_css_classes"] == Classes("row mb-3")
      && r.value["button_css_classes"] == Classes("offset-sm-3")
      && r.value["fieldset_css_classes"] == Classes("border p-3")
      && r.value.Keys == {"field_css_classes", "fieldset_css_classes", "button_css_classes",
                          "label_css_classes", "control_css_classes"}
  {
  }
}
