/**
 * What normalizeValue, optionLabel and getContentColumnType promise, stated
 * over their specification functions in module Fields and proved for every
 * catalog, every mode and every stored value.
 */
module FieldProperties {
  import opened CaseInsensitive
  import opened CountryTable
  import opened Catalog
  import opened Fields

  // ---------------------------------------------------------------------------
  // Label lookup (optionLabel)
  // ---------------------------------------------------------------------------

  /** When some row holds the code, the label is that of the first such row. */
  lemma {:induction false} LabelOfFirstMatch(options: seq<CountryOption>, code: string, i: nat)
    requires i < |options| && options[i].value == code
    requires forall j :: 0 <= j < i ==> options[j].value != code
    ensures LabelOf(options, code) == options[i].caption
    decreases i
  {
    if i > 0 {
      LabelOfFirstMatch(options[1..], code, i - 1);
    }
  }

  /** When no row holds the code, the code is its own label. */
  lemma {:induction false} LabelOfFallback(options: seq<CountryOption>, code: string)
    requires forall i :: 0 <= i < |options| ==> options[i].value != code
    ensures LabelOf(options, code) == code
    decreases |options|
  {
    if options != [] {
      LabelOfFallback(options[1..], code);
    }
  }

  // ---------------------------------------------------------------------------
  // The two lists normalizeValue builds
  // ---------------------------------------------------------------------------

  /** The attached option list follows the catalog row by row and flags exactly the listed codes. */
  lemma {:induction false} AnnotatedAt(options: seq<CountryOption>, selected: seq<string>)
    ensures |Annotated(options, selected)| == |options|
    ensures forall i :: 0 <= i < |options| ==>
      Annotated(options, selected)[i] == OptionData(options[i].caption, options[i].value, options[i].value in selected)
    decreases |options|
  {
    if options != [] {
      var init := options[..|options| - 1];
      AnnotatedAt(init, selected);
      assert forall i :: 0 <= i < |init| ==> init[i] == options[i];
    }
  }

  /** A multi-selection holds one chosen option per listed value, in input order, duplicates kept. */
  lemma {:induction false} SelectionAt(options: seq<CountryOption>, selected: seq<string>)
    ensures |Selection(options, selected)| == |selected|
    ensures forall k :: 0 <= k < |selected| ==>
      Selection(options, selected)[k] == OptionData(LabelOf(options, selected[k]), selected[k], true)
    decreases |selected|
  {
    if selected != [] {
      var init := selected[..|selected| - 1];
      SelectionAt(options, init);
      assert forall k :: 0 <= k < |init| ==> init[k] == selected[k];
    }
  }

  // ---------------------------------------------------------------------------
  // normalizeValue, for any catalog
  // ---------------------------------------------------------------------------

  /**
   * In both modes the attached list has one entry per catalog row, in
   * catalog order, with the row's label and code, selected exactly when the
   * code is strictly equal to one of the selected values.
   */
  lemma NormalizeOptionList(options: seq<CountryOption>, multi: bool, raw: RawValue, decode: string -> Option<RawValue>)
    ensures var r := Normalize(options, multi, Stored(raw), decode);
      var selected := SelectedValues(raw, decode);
      && |r.options| == |options|
      && forall i :: 0 <= i < |options| ==>
        && r.options[i].caption == options[i].caption
        && r.options[i].value == options[i].value
        && (r.options[i].selected <==> options[i].value in selected)
  {
    AnnotatedAt(options, SelectedValues(raw, decode));
  }

  /** Multi mode: one chosen option per selected value, in order, labelled by the lookup. */
  lemma NormalizeMultiSelection(options: seq<CountryOption>, raw: RawValue, decode: string -> Option<RawValue>)
    ensures var r := Normalize(options, true, Stored(raw), decode);
      var selected := SelectedValues(raw, decode);
      && r.MultiOptions?
      && |r.selection| == |selected|
      && forall k :: 0 <= k < |selected| ==> r.selection[k] == OptionData(LabelOf(options, selected[k]), selected[k], true)
  {
    SelectionAt(options, SelectedValues(raw, decode));
  }

  /**
   * Single mode: the value is the first selected value unless the list is
   * empty or that value is falsy, in which case value and label are null.
   */
  lemma NormalizeSingleValue(options: seq<CountryOption>, raw: RawValue, decode: string -> Option<RawValue>)
    ensures var r := Normalize(options, false, Stored(raw), decode);
      var selected := SelectedValues(raw, decode);
      && r.SingleOption? && r.selected
      && (r.value.Some? <==> selected != [] && !Falsy(selected[0]))
      && (r.value.Some? ==> r.value.value == selected[0] && r.caption == Some(LabelOf(options, selected[0])))
      && (r.value.None? ==> r.caption.None?)
  {
  }

  /** A value normalizeValue produced before is returned unchanged. */
  lemma NormalizePassesThrough(options: seq<CountryOption>, multi: bool, v: FieldValue, decode: string -> Option<RawValue>)
    ensures Normalize(options, multi, Normalized(v), decode) == v
  {
  }

  /** A null stored value selects nothing: no flagged option, no chosen option, null value and label. */
  lemma NullSelectsNothing(options: seq<CountryOption>, multi: bool, decode: string -> Option<RawValue>)
    ensures var r := Normalize(options, multi, Stored(Null), decode);
      && |r.options| == |options|
      && (forall i :: 0 <= i < |options| ==> !r.options[i].selected)
      && (multi ==> r.MultiOptions? && r.selection == [])
      && (!multi ==> r.SingleOption? && r.value == None && r.caption == None)
  {
    AnnotatedAt(options, []);
  }

  /**
   * A code no catalog row holds flags no option, yet it is kept as the
   * value and serves as its own label.
   */
  lemma UnknownCodeSelectsNothing(options: seq<CountryOption>, multi: bool, code: string, raw: RawValue, decode: string -> Option<RawValue>)
    requires SelectedValues(raw, decode) == [code]
    requires forall i :: 0 <= i < |options| ==> options[i].value != code
    ensures var r := Normalize(options, multi, Stored(raw), decode);
      && |r.options| == |options|
      && (forall i :: 0 <= i < |options| ==> !r.options[i].selected)
      && (multi ==> r.MultiOptions? && r.selection == [OptionData(code, code, true)])
      && (!multi && !Falsy(code) ==> r.SingleOption? && r.value == Some(code) && r.caption == Some(code))
  {
    AnnotatedAt(options, [code]);
    SelectionAt(options, [code]);
    LabelOfFallback(options, code);
  }

  // ---------------------------------------------------------------------------
  // normalizeValue on the catalog translatedOptions builds
  // ---------------------------------------------------------------------------

  /**
   * Selecting a code that exactly one row holds flags exactly that row and
   * reports its label.
   */
  lemma UniqueCodeSelectsOne(options: seq<CountryOption>, p: nat, multi: bool, raw: RawValue, decode: string -> Option<RawValue>)
    requires p < |options| && DistinctCodes(options) && !Falsy(options[p].value)
    requires SelectedValues(raw, decode) == [options[p].value]
    ensures var r := Normalize(options, multi, Stored(raw), decode);
      var code := options[p].value;
      var caption := options[p].caption;
      && |r.options| == |options|
      && r.options[p] == OptionData(caption, code, true)
      && (forall q :: 0 <= q < |options| && r.options[q].selected ==> q == p)
      && (multi ==> r.MultiOptions? && r.selection == [OptionData(caption, code, true)])
      && (!multi ==> r.SingleOption? && r.value == Some(code) && r.caption == Some(caption))
  {
    var code := options[p].value;
    LabelOfFirstMatch(options, code, p);
    AnnotatedAt(options, [code]);
    SelectionAt(options, [code]);
  }

  /**
   * Selecting the code of table row k flags exactly one option, the row with
   * its translated label, and that label is the one reported.
   */
  lemma CatalogCodeSelectsOne(options: seq<CountryOption>, t: string -> string, k: nat, multi: bool, raw: RawValue, decode: string -> Option<RawValue>)
    requires IsCatalog(options, t) && k < |Table()|
    requires SelectedValues(raw, decode) == [Table()[k].value]
    ensures var r := Normalize(options, multi, Stored(raw), decode);
      var code := Table()[k].value;
      var caption := t(Table()[k].caption);
      && |r.options| == |options|
      && (exists p :: 0 <= p < |options| && r.options[p] == OptionData(caption, code, true))
      && (forall p, q :: 0 <= p < |options| && 0 <= q < |options| && r.options[p].selected && r.options[q].selected ==> p == q)
      && (multi ==> r.MultiOptions? && r.selection == [OptionData(caption, code, true)])
      && (!multi ==> r.SingleOption? && r.value == Some(code) && r.caption == Some(caption))
  {
    CatalogCodes(options, t);
    CatalogHasRow(options, t, k);
    var p :| 0 <= p < |options| && options[p] == CountryOption(Table()[k].value, t(Table()[k].caption));
    assert IsCode(options[p].value);
    UniqueCodeSelectsOne(options, p, multi, raw, decode);
  }

  /** Spelling the table positions out: row 76 is France, row 78 the United Kingdom. */
  lemma FranceAndUnitedKingdomRows()
    ensures |Table()| == 251
    ensures Table()[76] == CountryOption("FR", "France")
    ensures Table()[78] == CountryOption("GB", "United Kingdom")
  {
    TableCodes();
    var upTo4 := Rows0() + Rows1() + Rows2() + Rows3() + Rows4();
    assert |Rows0()| == 16 && |Rows1()| == 16 && |Rows2()| == 16 && |Rows3()| == 16;
    assert upTo4[76] == Rows4()[12] && upTo4[78] == Rows4()[14];
    assert Table()[..80] == upTo4;
  }

  /** Normalising the stored string "GB" in single mode yields GB, labelled with the translation of "United Kingdom". */
  lemma UnitedKingdomScenario(options: seq<CountryOption>, t: string -> string, decode: string -> Option<RawValue>)
    requires IsCatalog(options, t)
    requires decode("GB") == None
    ensures var r := Normalize(options, false, Stored(Scalar("GB")), decode);
      r.SingleOption? && r.value == Some("GB") && r.caption == Some(t("United Kingdom"))
  {
    FranceAndUnitedKingdomRows();
    CatalogCodeSelectsOne(options, t, 78, false, Scalar("GB"), decode);
  }

  /** No localisation: every label stays English. */
  function Untranslated(s: string): string
  {
    s
  }

  /** With English labels, France is listed before the United Kingdom. */
  lemma FranceBeforeUnitedKingdom(options: seq<CountryOption>)
    requires IsCatalog(options, Untranslated)
    ensures forall p, q :: 0 <= p < |options| && 0 <= q < |options| && options[p].value == "FR" && options[q].value == "GB" ==> p < q
  {
    FranceAndUnitedKingdomRows();
    CatalogHasRow(options, Untranslated, 76);
    CatalogHasRow(options, Untranslated, 78);
    SortedPairwise(options);
    assert StrCaseCmp("United Kingdom", "France") > 0;
  }

  // ---------------------------------------------------------------------------
  // Normalising again what was normalised
  // ---------------------------------------------------------------------------

  /** Multi mode: storing the chosen codes as a list and normalising that list gives the same value. */
  lemma MultiNormalizeAgain(options: seq<CountryOption>, raw: RawValue, decode: string -> Option<RawValue>)
    ensures var r := Normalize(options, true, Stored(raw), decode);
      Normalize(options, true, Stored(List(ChosenValues(r.selection))), decode) == r
  {
    var selected := SelectedValues(raw, decode);
    SelectionAt(options, selected);
    assert ChosenValues(Selection(options, selected)) == selected;
  }

  /**
   * Single mode, for a stored value of at most one code and a catalog
   * without falsy codes: storing the value (null when there is none) and
   * normalising it again gives the same value.
   */
  lemma SingleNormalizeAgain(options: seq<CountryOption>, raw: RawValue, decode: string -> Option<RawValue>)
    requires |SelectedValues(raw, decode)| <= 1
    requires forall i :: 0 <= i < |options| ==> !Falsy(options[i].value)
    ensures var r := Normalize(options, false, Stored(raw), decode);
      var stored := if r.value.Some? then List([r.value.value]) else Null;
      Normalize(options, false, Stored(stored), decode) == r
  {
    var selected := SelectedValues(raw, decode);
    if selected != [] {
      assert selected == [selected[0]];
    }
    if selected != [] && Falsy(selected[0]) {
      AnnotatedAt(options, selected);
      AnnotatedAt(options, []);
      assert Annotated(options, selected) == Annotated(options, []);
    }
  }

  // ---------------------------------------------------------------------------
  // getContentColumnType
  // ---------------------------------------------------------------------------

  /**
   * For a non-empty list, the length getContentColumnType computes is exactly
   * the length of the JSON list of every code, when the codes need no escaping
   * and none is falsy.
   */
  lemma {:induction false} EncodedLengthIsJsonLength(options: seq<CountryOption>)
    requires options != []
    requires forall i :: 0 <= i < |options| ==> !Falsy(options[i].value) && NeedsNoEscape(options[i].value)
    ensures EncodedLength(options) + 1 == |JsonList(Values(options))|
    decreases |options|
  {
    var n := |options|;
    if n > 1 {
      var init := options[..n - 1];
      EncodedLengthIsJsonLength(init);
      assert Values(options)[..n - 1] == Values(init);
    }
  }

  /**
   * Rows whose codes are all falsy add nothing, so the length passed on is 1.
   * For an empty list that is one less than the two characters of "[]": the
   * "-1 for the last comma" has no comma to take back.
   */
  lemma {:induction false} NoCodesColumnLength(options: seq<CountryOption>)
    requires forall i :: 0 <= i < |options| ==> Falsy(options[i].value)
    ensures EncodedLength(options) + 1 == 1
    ensures options == [] ==> EncodedLength(options) + 1 == |JsonList(Values(options))| - 1
    decreases |options|
  {
    if options != [] {
      NoCodesColumnLength(options[..|options| - 1]);
    }
  }

  /** Rows whose codes are two letters each cost five characters. */
  lemma {:induction false} EncodedLengthOfCodes(options: seq<CountryOption>)
    requires forall i :: 0 <= i < |options| ==> IsCode(options[i].value)
    ensures EncodedLength(options) == 5 * |options|
    decreases |options|
  {
    if options != [] {
      EncodedLengthOfCodes(options[..|options| - 1]);
    }
  }

  /** 251 rows with two-letter codes: 1256 characters, the JSON list of all the codes. */
  lemma TwoLetterColumnLength(options: seq<CountryOption>)
    requires |options| == 251
    requires forall i :: 0 <= i < |options| ==> IsCode(options[i].value)
    ensures EncodedLength(options) + 1 == 1256
    ensures EncodedLength(options) + 1 == |JsonList(Values(options))|
  {
    EncodedLengthOfCodes(options);
    EncodedLengthIsJsonLength(options);
  }

  /**
   * For the catalog the content length passed on is 1256, the length of the
   * JSON list of all 251 codes.
   */
  lemma CatalogColumnLength(options: seq<CountryOption>, t: string -> string)
    requires IsCatalog(options, t)
    ensures EncodedLength(options) + 1 == 1256
    ensures EncodedLength(options) + 1 == |JsonList(Values(options))|
  {
    CatalogCodes(options, t);
    TwoLetterColumnLength(options);
  }
}
