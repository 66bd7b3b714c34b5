/** `verify_translations.py`: the completeness report for a catalog, the
    keys two catalogs share, and the script's exit status. */
module VerifyTranslations {
  import opened Outcomes
  import opened Xcstrings

  /** `verify_file`'s result: translatable strings, fully translated
      strings, and the languages each other string lacks. */
  datatype Report = Report(total: nat, complete: nat, missing: map<string, seq<string>>)

  /** `verify_file`. No language stands in for another here. */
  method VerifyFile(c: Catalog) returns (r: Report)
    ensures r.total == |Translatable(StringsOf(c))|
    ensures r.missing.Keys == MissingKeys(StringsOf(c), TargetLanguages, false)
    ensures forall k :: k in r.missing ==> r.missing[k] == Uncovered(TargetLanguages, Present(StringsOf(c)[k]), false)
    ensures r.complete + |r.missing| == r.total
  {
    var total, complete, missing := Scan(StringsOf(c), TargetLanguages, false);
    r := Report(total, complete, missing);
  }

  /** `check_duplicates`: the keys both catalogs define. It indexes
      `strings` directly, so a catalog without it raises. */
  function DuplicateKeys(ui: Catalog, main: Catalog): (r: Result<set<string>, KeyError>)
    ensures r.Err? <==> ui.strings.None? || main.strings.None?
    ensures r.Err? ==> r.error == KeyError("strings")
    ensures r.Ok? ==> forall k :: k in r.value <==> k in ui.strings.value && k in main.strings.value
  {
    if ui.strings.None? || main.strings.None? then Err(KeyError("strings"))
    else Ok(ui.strings.value.Keys * main.strings.value.Keys)
  }

  /** Swapping the two catalogs finds the same duplicates. */
  lemma DuplicatesSymmetric(a: Catalog, b: Catalog)
    ensures DuplicateKeys(a, b) == DuplicateKeys(b, a)
  {
    if a.strings.Some? && b.strings.Some? {
      assert a.strings.value.Keys * b.strings.value.Keys == b.strings.value.Keys * a.strings.value.Keys;
    }
  }

  /** How the script ends: an exit status, or an uncaught exception. */
  datatype Exit = Exited(code: int) | Raised(error: KeyError)

  /** `main`, given each catalog or `None` for a missing file. The status
      is 0 exactly when no existing file lacks a translation; when both
      files exist the duplicate check runs afterwards and raises if either
      lacks `strings`. */
  method VerifyMain(ui: Option<Catalog>, main: Option<Catalog>) returns (r: Exit)
    ensures r.Raised? <==> ui.Some? && main.Some? && (ui.value.strings.None? || main.value.strings.None?)
    ensures r.Exited? ==> (r.code == 0 <==> FullyTranslated(ui, false) && FullyTranslated(main, false))
    ensures r.Exited? ==> r.code == 0 || r.code == 1
  {
    var uiMissing, mainMissing := 0, 0;
    if ui.Some? {
      var report := VerifyFile(ui.value);
      uiMissing := |report.missing|;
    }
    assert uiMissing == 0 <==> FullyTranslated(ui, false);
    if main.Some? {
      var report := VerifyFile(main.value);
      mainMissing := |report.missing|;
    }
    assert mainMissing == 0 <==> FullyTranslated(main, false);
    var missingAll := uiMissing + mainMissing;
    if ui.Some? && main.Some? && DuplicateKeys(ui.value, main.value).Err? {
      return Raised(DuplicateKeys(ui.value, main.value).error);
    }
    r := Exited(if missingAll == 0 then 0 else 1);
  }
}
