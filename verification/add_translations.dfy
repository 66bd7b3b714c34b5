/** `add_translations.py`: merges supplied translations into the entries
    of a catalog without overwriting any. */
module AddTranslations {
  import opened Outcomes
  import opened JsonTree
  import opened Xcstrings

  /** Per string key, the text for each language to add. */
  type Translations = map<string, map<string, string>>

  /** How a new translation is stored: a string unit marked translated. */
  function StringUnit(value: string): Json {
    JObject(map["stringUnit" := JObject(map["state" := JString("translated"), "value" := JString(value)])])
  }

  /** Some language of `t` is not yet in the entry. */
  predicate AddsTo(e: Entry, t: map<string, string>) {
    exists l :: l in t && l !in Present(e)
  }

  /** One entry after the loop body: `localizations` exists, every language
      it already had keeps its value, and each other language of `t` gets a
      new string unit. */
  function MergeEntry(e: Entry, t: map<string, string>): (r: Entry)
    ensures r.shouldTranslate == e.shouldTranslate && r.localizations.Some?
    ensures r.localizations.value.Keys == Present(e) + t.Keys
    ensures forall l :: l in Present(e) ==> r.localizations.value[l] == e.localizations.value[l]
    ensures forall l :: l in t && l !in Present(e) ==> r.localizations.value[l] == StringUnit(t[l])
  {
    var before := if e.localizations.Some? then e.localizations.value else map[];
    e.(localizations := Some(map l | l in before.Keys + t.Keys :: if l in before then before[l] else StringUnit(t[l])))
  }

  /** `add_translations_to_file`. Keys not in `strings` are skipped;
      with a non-empty dictionary, a catalog without `strings` raises. */
  function AddTranslations(c: Catalog, t: Translations): (r: Result<Edit, KeyError>)
    ensures r.Err? <==> c.strings.None? && t != map[]
    ensures r.Err? ==> r.error == KeyError("strings")
    ensures r.Ok? && c.strings.None? ==> r.value == Edit(c, false)
    ensures r.Ok? && c.strings.Some? ==>
      && r.value.catalog.strings.Some?
      && r.value.catalog.strings.value.Keys == c.strings.value.Keys
      && (forall k :: k in c.strings.value && k !in t ==> r.value.catalog.strings.value[k] == c.strings.value[k])
      && (forall k :: k in c.strings.value && k in t ==> r.value.catalog.strings.value[k] == MergeEntry(c.strings.value[k], t[k]))
    ensures r.Ok? ==> (r.value.modified <==> exists k :: k in StringsOf(c) && k in t && AddsTo(StringsOf(c)[k], t[k]))
  {
    if c.strings.None? then
      if t == map[] then Ok(Edit(c, false)) else Err(KeyError("strings"))
    else
      var strings := c.strings.value;
      Ok(Edit(Catalog(Some(map k | k in strings :: if k in t then MergeEntry(strings[k], t[k]) else strings[k])),
              exists k :: k in strings && k in t && AddsTo(strings[k], t[k])))
  }

  /** Merging the same translations twice is merging them once. */
  lemma MergeIdempotent(e: Entry, t: map<string, string>)
    ensures MergeEntry(MergeEntry(e, t), t) == MergeEntry(e, t)
    ensures !AddsTo(MergeEntry(e, t), t)
  {
    var once := MergeEntry(e, t);
    assert MergeEntry(once, t).localizations.value == once.localizations.value;
  }

  /** Re-applying the same dictionary adds nothing and writes nothing. */
  lemma {:induction false} ReapplyAddsNothing(c: Catalog, t: Translations)
    requires AddTranslations(c, t).Ok?
    ensures var once := AddTranslations(c, t).value.catalog;
      AddTranslations(once, t) == Ok(Edit(once, false))
  {
    var once := AddTranslations(c, t).value.catalog;
    if c.strings.Some? {
      var s := once.strings.value;
      forall k | k in s && k in t
        ensures MergeEntry(s[k], t[k]) == s[k] && !AddsTo(s[k], t[k])
      {
        MergeIdempotent(c.strings.value[k], t[k]);
      }
      assert (map k | k in s :: if k in t then MergeEntry(s[k], t[k]) else s[k]) == s;
    }
  }

  /** After the script, the file holds a translation for every language
      asked for, under every key it has: either the file was rewritten
      with them, or each was there already. */
  lemma {:induction false} SavedFileCoversRequest(c: Catalog, t: Translations, k: string, l: string)
    requires AddTranslations(c, t).Ok? && c.strings.Some?
    requires k in c.strings.value && k in t && l in t[k]
    ensures var file := Saved(c, AddTranslations(c, t).value);
      file.strings.Some? && k in file.strings.value && l in Present(file.strings.value[k])
  {
    var e := AddTranslations(c, t).value;
    if !e.modified {
      assert !AddsTo(c.strings.value[k], t[k]);
    }
  }
}
