/** The string catalogs (`Localizable.xcstrings`) the localization scripts
    read, after JSON parsing, and the report both checking scripts compute
    over them. */
module Xcstrings {
  import opened Outcomes
  import opened JsonTree

  /** One entry of `strings`: its `shouldTranslate` member, if any, and its
      `localizations` object, if any, keyed by language code. */
  datatype Entry = Entry(shouldTranslate: Option<Json>, localizations: Option<map<string, Json>>)

  type Strings = map<string, Entry>

  /** A catalog file's top-level object; `strings` may be missing. */
  datatype Catalog = Catalog(strings: Option<Strings>)

  /** The languages every translatable string must cover, in the order the
      scripts report them. */
  const TargetLanguages: seq<string> := [
    "ar-SA", "ca", "cs", "da", "de-DE", "el", "en", "en-AU", "en-CA", "en-GB", "en-US",
    "es-ES", "es-MX", "fi", "fr-CA", "fr-FR", "he", "hi", "hr", "hu", "id", "it", "ja",
    "ko", "ms", "nl-NL", "no", "pl", "pt-BR", "pt-PT", "ro", "ru", "sk", "sv", "th", "tr",
    "uk", "vi", "zh-Hans", "zh-Hant"
  ]

  /** `data.get("strings", {})`. */
  function StringsOf(c: Catalog): Strings {
    if c.strings.Some? then c.strings.value else map[]
  }

  /** `value.get("shouldTranslate") == False` under Python's equality, which
      also holds for the numbers 0 and 0.0. */
  predicate Skipped(e: Entry) {
    e.shouldTranslate == Some(JBool(false)) || e.shouldTranslate == Some(JNumber(0.0))
  }

  /** The languages `value.get("localizations", {})` holds. */
  function Present(e: Entry): set<string> {
    if e.localizations.Some? then e.localizations.value.Keys else {}
  }

  /** Whether `lang` counts as translated. Only the missing-translations
      check lets "nb" stand in for "no". */
  predicate Covered(lang: string, present: set<string>, nbCountsAsNo: bool) {
    lang in present || (nbCountsAsNo && lang == "no" && "nb" in present)
  }

  /** `a` is `b` with some elements deleted, order kept. */
  predicate Subsequence(a: seq<string>, b: seq<string>)
    decreases |b|
  {
    |a| == 0 || (|b| > 0 && ((a[0] == b[0] && Subsequence(a[1..], b[1..])) || Subsequence(a, b[1..])))
  }

  /** The languages of `langs` not covered, in the order of `langs`. */
  function Uncovered(langs: seq<string>, present: set<string>, nbCountsAsNo: bool): (r: seq<string>)
    ensures |r| <= |langs|
  {
    if |langs| == 0 then []
    else
      var rest := Uncovered(langs[1..], present, nbCountsAsNo);
      if Covered(langs[0], present, nbCountsAsNo) then rest
      else [langs[0]] + rest
  }

  /** Exactly the uncovered languages are listed, and the list is empty
      exactly when every language is covered. */
  lemma {:induction false} UncoveredMembers(langs: seq<string>, present: set<string>, nbCountsAsNo: bool)
    ensures forall l :: l in Uncovered(langs, present, nbCountsAsNo) <==> l in langs && !Covered(l, present, nbCountsAsNo)
    ensures Uncovered(langs, present, nbCountsAsNo) == [] <==> forall l :: l in langs ==> Covered(l, present, nbCountsAsNo)
    decreases |langs|
  {
    if |langs| > 0 {
      UncoveredMembers(langs[1..], present, nbCountsAsNo);
      assert forall l :: l in langs <==> l == langs[0] || l in langs[1..];
    }
  }

  /** The languages come out in the order of `langs`. */
  lemma {:induction false} UncoveredKeepsOrder(langs: seq<string>, present: set<string>, nbCountsAsNo: bool)
    ensures Subsequence(Uncovered(langs, present, nbCountsAsNo), langs)
    decreases |langs|
  {
    if |langs| > 0 {
      var rest := Uncovered(langs[1..], present, nbCountsAsNo);
      UncoveredKeepsOrder(langs[1..], present, nbCountsAsNo);
      if !Covered(langs[0], present, nbCountsAsNo) {
        assert ([langs[0]] + rest)[1..] == rest;
      }
    }
  }

  /** The keys counted toward the total. */
  function Translatable(strings: Strings): set<string> {
    set k | k in strings && !Skipped(strings[k])
  }

  /** Whether a report lists the entry as missing languages. */
  predicate Lacking(e: Entry, targets: seq<string>, nbCountsAsNo: bool) {
    !Skipped(e) && Uncovered(targets, Present(e), nbCountsAsNo) != []
  }

  /** The keys a report lists as missing. */
  function MissingKeys(strings: Strings, targets: seq<string>, nbCountsAsNo: bool): set<string> {
    set k | k in strings && Lacking(strings[k], targets, nbCountsAsNo)
  }

  /** The loop both checking scripts run over `strings`: counts the
      translatable entries and the fully translated ones, and maps each
      other translatable key to the target languages it lacks. */
  method Scan(strings: Strings, targets: seq<string>, nbCountsAsNo: bool) returns (total: nat, complete: nat, missing: map<string, seq<string>>)
    ensures total == |Translatable(strings)|
    ensures missing.Keys == MissingKeys(strings, targets, nbCountsAsNo)
    ensures forall k :: k in missing ==> missing[k] == Uncovered(targets, Present(strings[k]), nbCountsAsNo)
    ensures complete + |missing| == total
  {
    total, complete, missing := 0, 0, map[];
    var todo := strings.Keys;
    ghost var counted: set<string> := {};
    while todo != {}
      invariant todo <= strings.Keys
      invariant forall x :: x in counted <==> x in strings && x !in todo && !Skipped(strings[x])
      invariant total == |counted|
      invariant forall x :: x in missing <==> x in strings && x !in todo && Lacking(strings[x], targets, nbCountsAsNo)
      invariant forall x :: x in missing ==> missing[x] == Uncovered(targets, Present(strings[x]), nbCountsAsNo)
      invariant complete + |missing| == total
      decreases |todo|
    {
      var k :| k in todo;
      var e := strings[k];
      if !Skipped(e) {
        total := total + 1;
        counted := counted + {k};
        var langs := Uncovered(targets, Present(e), nbCountsAsNo);
        if langs != [] {
          missing := missing[k := langs];
        } else {
          complete := complete + 1;
        }
      }
      todo := todo - {k};
    }
    assert counted == Translatable(strings);
  }

  /** A report over an optional file finds nothing: the file is absent or
      no key of it lacks a target language. */
  predicate FullyTranslated(file: Option<Catalog>, nbCountsAsNo: bool) {
    file.None? || MissingKeys(StringsOf(file.value), TargetLanguages, nbCountsAsNo) == {}
  }

  /** `data["strings"]` on a catalog without `strings` raises this. */
  datatype KeyError = KeyError(key: string)

  /** What a script that edits a catalog computed, and whether it rewrites
      the file. */
  datatype Edit = Edit(catalog: Catalog, modified: bool)

  /** The file's contents after the script: rewritten only when modified. */
  function Saved(stored: Catalog, e: Edit): Catalog {
    if e.modified then e.catalog else stored
  }

  /** The alias only removes languages from a report. */
  lemma CheckMissesNoMoreThanVerify(strings: Strings, targets: seq<string>)
    ensures MissingKeys(strings, targets, true) <= MissingKeys(strings, targets, false)
  {
    forall k | k in MissingKeys(strings, targets, true)
      ensures k in MissingKeys(strings, targets, false)
    {
      var present := Present(strings[k]);
      var aliased := Uncovered(targets, present, true);
      UncoveredMembers(targets, present, true);
      UncoveredMembers(targets, present, false);
      assert aliased[0] in aliased;
      assert aliased[0] in Uncovered(targets, present, false);
    }
  }

  /** A key is reported by the plain check and not by the aliasing one
      exactly when "nb" is present and "no" is the only language it lacks. */
  lemma AliasOnlyForgivesNo(strings: Strings, targets: seq<string>, k: string)
    requires k in strings
    ensures k in MissingKeys(strings, targets, false) && k !in MissingKeys(strings, targets, true) <==>
      && !Skipped(strings[k])
      && "nb" in Present(strings[k])
      && Uncovered(targets, Present(strings[k]), false) != []
      && forall l :: l in Uncovered(targets, Present(strings[k]), false) ==> l == "no"
  {
    var present := Present(strings[k]);
    var plain := Uncovered(targets, present, false);
    var aliased := Uncovered(targets, present, true);
    UncoveredMembers(targets, present, true);
    UncoveredMembers(targets, present, false);
    if k in MissingKeys(strings, targets, false) && k !in MissingKeys(strings, targets, true) {
      assert aliased == [];
      assert plain[0] in plain;
    }
    if !Skipped(strings[k]) && "nb" in present && plain != [] && (forall l :: l in plain ==> l == "no") {
      assert k in MissingKeys(strings, targets, false);
      assert k !in MissingKeys(strings, targets, true);
    }
  }
}
