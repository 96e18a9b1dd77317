/**
 * The country-select field (CountrySelectBaseOptionsField in
 * src/fields/CountrySelectBaseOptionsField.php): its option catalog, the
 * normalisation of a stored value into a single- or multi-selection, the
 * label lookup, and the length of the content column in multi mode.
 *
 * Host-framework values are modelled as datatypes: OptionData,
 * SingleOptionFieldData and MultiOptionsFieldData become OptionData and
 * FieldValue; Json::decodeIfJson and Craft::t are function parameters.
 */
module Fields {
  import opened CountryTable
  import opened Catalog

  datatype Option<T> = None | Some(value: T)

  /**
   * A stored value after JSON decoding and before the (array) cast: PHP's
   * null, a string, or a list of strings.
   */
  datatype RawValue = Null | Scalar(text: string) | List(items: seq<string>)

  /**
   * The value normalizeValue is handed: either one it produced before, or a
   * stored value. A stored Scalar is a PHP string, which is JSON-decoded first.
   */
  datatype Input = Normalized(field: FieldValue) | Stored(raw: RawValue)

  /** OptionData: a label, a value and whether it is selected. */
  datatype OptionData = OptionData(caption: string, value: string, selected: bool)

  /**
   * SingleOptionFieldData (label and value may be null) or
   * MultiOptionsFieldData (the chosen options); both carry the full option
   * list that setOptions attaches.
   */
  datatype FieldValue =
    | SingleOption(caption: Option<string>, value: Option<string>, selected: bool, options: seq<OptionData>)
    | MultiOptions(selection: seq<OptionData>, options: seq<OptionData>)

  /**
   * The content column: a textual column sized for a content length
   * (Db::getTextualColumnTypeByContentLength), or a plain string column.
   */
  datatype ColumnType = TextualForLength(contentLength: int) | PlainString

  /** PHP's falsy strings: the operand of ?: and of empty(). */
  predicate Falsy(s: string)
  {
    s == "" || s == "0"
  }

  /**
   * Json::decodeIfJson: the decoded value when the string is JSON (decode
   * answers Some), the string itself otherwise.
   */
  function DecodeIfJson(decode: string -> Option<RawValue>, s: string): RawValue
  {
    match decode(s)
    case Some(v) => v
    case None => Scalar(s)
  }

  /** The (array) cast. */
  function ToList(v: RawValue): seq<string>
  {
    match v
    case Null => []
    case Scalar(s) => [s]
    case List(items) => items
  }

  /** The list of selected values a stored value stands for (lines 92-97). */
  function SelectedValues(raw: RawValue, decode: string -> Option<RawValue>): seq<string>
  {
    ToList(if raw.Scalar? then DecodeIfJson(decode, raw.text) else raw)
  }

  /** The label of the first catalog row holding the code, or the code itself. */
  function LabelOf(options: seq<CountryOption>, code: string): string
    decreases |options|
  {
    if options == [] then code
    else if options[0].value == code then options[0].caption
    else LabelOf(options[1..], code)
  }

  /** optionLabel on a possibly null value: null has no label. */
  function FindLabel(options: seq<CountryOption>, value: Option<string>): Option<string>
  {
    match value
    case None => None
    case Some(code) => Some(LabelOf(options, code))
  }

  /** The option list setOptions attaches, built by appending one flagged row per catalog row. */
  function Annotated(options: seq<CountryOption>, selected: seq<string>): seq<OptionData>
    decreases |options|
  {
    if options == [] then []
    else
      var last := options[|options| - 1];
      Annotated(options[..|options| - 1], selected) + [OptionData(last.caption, last.value, last.value in selected)]
  }

  /** The options of a multi-selection, built by appending one per selected value. */
  function Selection(options: seq<CountryOption>, selected: seq<string>): seq<OptionData>
    decreases |selected|
  {
    if selected == [] then []
    else
      var last := selected[|selected| - 1];
      Selection(options, selected[..|selected| - 1]) + [OptionData(LabelOf(options, last), last, true)]
  }

  /** reset($selectedValues) ?: null: the first value unless the list is empty or it is falsy. */
  function CurrentValue(selected: seq<string>): Option<string>
  {
    if selected != [] && !Falsy(selected[0]) then Some(selected[0]) else None
  }

  /** What normalizeValue returns, as a function of the catalog, the mode and the input. */
  function Normalize(options: seq<CountryOption>, multi: bool, input: Input, decode: string -> Option<RawValue>): FieldValue
  {
    match input
    case Normalized(v) => v
    case Stored(raw) =>
      var selected := SelectedValues(raw, decode);
      var annotated := Annotated(options, selected);
      if multi then MultiOptions(Selection(options, selected), annotated)
      else
        var current := CurrentValue(selected);
        SingleOption(FindLabel(options, current), current, true, annotated)
  }

  /** The worst-case JSON length counted by getContentColumnType, summed row by row. */
  function EncodedLength(options: seq<CountryOption>): nat
    decreases |options|
  {
    if options == [] then 0
    else
      var last := options[|options| - 1];
      EncodedLength(options[..|options| - 1]) + (if Falsy(last.value) then 0 else |last.value| + 3)
  }

  /** The codes of a list of rows. */
  function Values(options: seq<CountryOption>): seq<string>
  {
    seq(|options|, i requires 0 <= i < |options| => options[i].value)
  }

  /** The codes of a list of chosen options. */
  function ChosenValues(selection: seq<OptionData>): seq<string>
  {
    seq(|selection|, i requires 0 <= i < |selection| => selection[i].value)
  }

  /** A string JSON encodes without escapes: ASCII letters and digits only. */
  predicate NeedsNoEscape(s: string)
  {
    forall i :: 0 <= i < |s| ==> 'A' <= s[i] <= 'Z' || 'a' <= s[i] <= 'z' || '0' <= s[i] <= '9'
  }

  /** The JSON encoding of a string that needs no escapes. */
  function JsonString(s: string): string
  {
    "\"" + s + "\""
  }

  /** The comma-separated JSON strings of a list. */
  function JsonItems(codes: seq<string>): string
    decreases |codes|
  {
    if codes == [] then ""
    else if |codes| == 1 then JsonString(codes[0])
    else JsonItems(codes[..|codes| - 1]) + "," + JsonString(codes[|codes| - 1])
  }

  /** The JSON encoding of a list of strings that need no escapes. */
  function JsonList(codes: seq<string>): string
  {
    "[" + JsonItems(codes) + "]"
  }

  /** A country-select field: its catalog and whether it allows several selections. */
  class CountrySelectField {
    var options: seq<CountryOption>
    var multi: bool

    /**
     * init: the catalog is the translated, sorted table. The subclasses
     * CountrySelectMultiField and CountrySelectMultiSelect then set multi to
     * true.
     */
    constructor (t: string -> string, multi: bool)
      ensures IsCatalog(options, t)
      ensures this.multi == multi
    {
      var countries := TranslatedOptions(t);
      options := countries;
      this.multi := multi;
    }

    /**
     * getContentColumnType: in multi mode a textual column long enough for
     * every code selected at once; otherwise a plain string column.
     */
    method GetContentColumnType() returns (column: ColumnType)
      ensures multi ==> column == TextualForLength(EncodedLength(options) + 1)
      ensures !multi ==> column == PlainString
    {
      if multi {
        var length := 0;
        for k := 0 to |options|
          invariant length == EncodedLength(options[..k])
        {
          assert options[..k + 1][..k] == options[..k];
          var option := options[k];
          if !Falsy(option.value) {
            length := length + |option.value| + 3;
          }
        }
        assert options[..|options|] == options;
        return TextualForLength(length + 1);
      }
      return PlainString;
    }

    /** optionLabel: a linear scan for the first row with the value, falling back to the value. */
    method OptionLabel(value: Option<string>) returns (caption: Option<string>)
      ensures caption == FindLabel(options, value)
    {
      var i := 0;
      while i < |options|
        invariant 0 <= i <= |options|
        invariant value.Some? ==> LabelOf(options[i..], value.value) == LabelOf(options, value.value)
      {
        assert options[i..][1..] == options[i + 1..];
        if Some(options[i].value) == value {
          return Some(options[i].caption);
        }
        i := i + 1;
      }
      return value;
    }

    /** normalizeValue. */
    method NormalizeValue(input: Input, decode: string -> Option<RawValue>) returns (result: FieldValue)
      ensures result == Normalize(options, multi, input, decode)
    {
      if input.Normalized? {
        return input.field;
      }
      var value := input.raw;
      if value.Scalar? {
        value := DecodeIfJson(decode, value.text);
      }
      var selectedValues := ToList(value);

      if multi {
        var selection := [];
        for k := 0 to |selectedValues|
          invariant selection == Selection(options, selectedValues[..k])
        {
          assert selectedValues[..k + 1][..k] == selectedValues[..k];
          var val := selectedValues[k];
          var caption := OptionLabel(Some(val));
          selection := selection + [OptionData(caption.value, val, true)];
        }
        assert selectedValues[..|selectedValues|] == selectedValues;
        result := MultiOptions(selection, []);
      } else {
        var current := if selectedValues != [] && !Falsy(selectedValues[0]) then Some(selectedValues[0]) else None;
        var caption := OptionLabel(current);
        result := SingleOption(caption, current, true, []);
      }

      var annotated := [];
      for k := 0 to |options|
        invariant annotated == Annotated(options[..k], selectedValues)
      {
        assert options[..k + 1][..k] == options[..k];
        var option := options[k];
        annotated := annotated + [OptionData(option.caption, option.value, option.value in selectedValues)];
      }
      assert options[..|options|] == options;
      result := result.(options := annotated);
    }
  }
}
