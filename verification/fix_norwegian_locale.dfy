/** `fix_norwegian_locale.py`: renames the "nb" localization of each entry
    to "no" where "no" is not there yet. */
module FixNorwegianLocale {
  import opened Outcomes
  import opened JsonTree
  import opened Xcstrings

  /** The entry holds "nb" and not "no". */
  predicate NeedsRename(e: Entry) {
    e.localizations.Some? && "nb" in e.localizations.value && "no" !in e.localizations.value
  }

  /** One entry after the loop body. An entry without `localizations` is
      left alone: the empty map `get` returns is not stored back. */
  function RenameEntry(e: Entry): (r: Entry)
    ensures r.shouldTranslate == e.shouldTranslate
    ensures !NeedsRename(e) ==> r == e
    ensures NeedsRename(e) ==>
      var before := e.localizations.value;
      && r.localizations.Some?
      && (forall l :: l in r.localizations.value <==> l == "no" || (l in before && l != "nb"))
      && r.localizations.value["no"] == before["nb"]
      && (forall l :: l in before && l != "nb" ==> r.localizations.value[l] == before[l])
    ensures !NeedsRename(r)
  {
    if NeedsRename(e) then
      var before := e.localizations.value;
      e.(localizations := Some((before - {"nb"})["no" := before["nb"]]))
    else e
  }

  /** `fix_norwegian_in_file`: every entry renamed, and whether any was. */
  function FixNorwegian(c: Catalog): (r: Edit)
    ensures r.modified <==> exists k :: k in StringsOf(c) && NeedsRename(StringsOf(c)[k])
    ensures c.strings.None? ==> r.catalog == c
    ensures c.strings.Some? ==> r.catalog.strings.Some? && r.catalog.strings.value.Keys == c.strings.value.Keys
    ensures c.strings.Some? ==> forall k :: k in c.strings.value ==> r.catalog.strings.value[k] == RenameEntry(c.strings.value[k])
    ensures forall k :: k in StringsOf(r.catalog) ==> !NeedsRename(StringsOf(r.catalog)[k])
  {
    if c.strings.None? then Edit(c, false)
    else
      var strings := c.strings.value;
      assert StringsOf(c) == strings;
      Edit(Catalog(Some(map k | k in strings :: RenameEntry(strings[k]))),
           exists k :: k in strings && NeedsRename(strings[k]))
  }

  /** A second run changes nothing and does not rewrite the file. */
  lemma FixIsIdempotent(c: Catalog)
    ensures FixNorwegian(FixNorwegian(c).catalog) == Edit(FixNorwegian(c).catalog, false)
  {
    var once := FixNorwegian(c).catalog;
    if once.strings.Some? {
      assert (map k | k in once.strings.value :: RenameEntry(once.strings.value[k])) == once.strings.value;
    }
  }

  /** When nothing needs renaming the file is left as it was. */
  lemma UnmodifiedFileUnchanged(c: Catalog)
    requires !FixNorwegian(c).modified
    ensures Saved(c, FixNorwegian(c)) == c
    ensures FixNorwegian(c).catalog == c
  {
    if c.strings.Some? {
      assert (map k | k in c.strings.value :: RenameEntry(c.strings.value[k])) == c.strings.value;
    }
  }
}
