/** `check_missing_translations.py`: the same scan as the verification
    script, except that "nb" counts for "no". */
module CheckMissingTranslations {
  import opened Outcomes
  import opened Xcstrings

  /** `check_missing_translations`. */
  method CheckMissing(c: Catalog) returns (missing: map<string, seq<string>>)
    ensures missing.Keys == MissingKeys(StringsOf(c), TargetLanguages, true)
    ensures forall k :: k in missing ==> missing[k] == Uncovered(TargetLanguages, Present(StringsOf(c)[k]), true)
  {
    var _, _, m := Scan(StringsOf(c), TargetLanguages, true);
    missing := m;
  }

  /** `main`, given each catalog or `None` for a missing file: 0 exactly
      when neither existing file lacks a translation. */
  method CheckMain(ui: Option<Catalog>, main: Option<Catalog>) returns (code: int)
    ensures code == 0 <==> FullyTranslated(ui, true) && FullyTranslated(main, true)
    ensures code == 0 || code == 1
  {
    var totalMissing := 0;
    if ui.Some? {
      var m := CheckMissing(ui.value);
      totalMissing := totalMissing + |m|;
    }
    if main.Some? {
      var m := CheckMissing(main.value);
      totalMissing := totalMissing + |m|;
    }
    code := if totalMissing == 0 then 0 else 1;
  }

  /** A file the verification script passes also passes this check. */
  lemma VerifiedFilePassesCheck(file: Option<Catalog>)
    requires FullyTranslated(file, false)
    ensures FullyTranslated(file, true)
  {
    if file.Some? {
      CheckMissesNoMoreThanVerify(StringsOf(file.value), TargetLanguages);
    }
  }
}
