/**
 * One survey form field: the validation rules handed to the form library,
 * the coercions from an input element's string value to the stored value,
 * and what a read-only radio group shows.
 */
module FormField {
  import opened Js

  /** A validation rule: one passed through from `validation`, or a `min`/`max` bound. */
  datatype Rule =
    | Given(value: JsValue)
    | Bound(value: JsValue)   // `{ value, message }`; the message only quotes the bound

  type Rules = map<string, Rule>

  /**
   * `validationRules`: a copy of `validation` (absent spreads to nothing),
   * then `min` and `max` set from the props when they are not undefined,
   * replacing any rule of the same name.
   */
  function ValidationRules(validation: Option<Object>, min: JsValue, max: JsValue): (r: Rules)
    ensures var given := if validation.Some? then validation.value.Keys else {};
      r.Keys == given + (if min != Undefined then {"min"} else {}) + (if max != Undefined then {"max"} else {})
    ensures validation.Some? ==> forall k :: k in validation.value ==>
              (k == "min" && min != Undefined) || (k == "max" && max != Undefined) || r[k] == Given(validation.value[k])
    ensures min != Undefined ==> r["min"] == Bound(min)
    ensures max != Undefined ==> r["max"] == Bound(max)
    ensures min == Undefined && validation.Some? && "min" in validation.value ==> r["min"] == Given(validation.value["min"])
    ensures max == Undefined && validation.Some? && "max" in validation.value ==> r["max"] == Given(validation.value["max"])
  {
    var copied: Rules := if validation.Some? then map k | k in validation.value :: Given(validation.value[k]) else map[];
    var withMin := if min != Undefined then copied["min" := Bound(min)] else copied;
    if max != Undefined then withMin["max" := Bound(max)] else withMin
  }

  /** `watch ? watch(name) : undefined`; `watch` reads the current form values. */
  function WatchedValue(watch: Option<Object>, name: string): (r: JsValue)
    ensures watch.None? ==> r == Undefined
    ensures watch.Some? ==> r == Get(watch.value, name)
  {
    if watch.None? then Undefined else Get(watch.value, name)
  }

  /** `setValueAs` of a number input: `value === '' ? undefined : parseInt(value) || 0`. */
  function NumberInputValue(input: string): (r: JsValue)
    ensures input == "" <==> r == Undefined
    ensures input != "" ==> r.Num?
    ensures input != "" && ParseIntString(input).None? ==> r == Num(0)
    ensures ParseIntString(input).Some? ==> r == Num(ParseIntString(input).value)
  {
    if input == "" then Undefined else Num(ParseIntOr(Str(input), 0))
  }

  /** `setValueAs` of a radio group: `parseInt(value) || 1`. */
  function RadioInputValue(input: string): (r: int)
    ensures r != 0
    ensures ParseIntString(input).None? || ParseIntString(input) == Some(0) ==> r == 1
    ensures ParseIntString(input).Some? && ParseIntString(input).value != 0 ==> r == ParseIntString(input).value
  {
    ParseIntOr(Str(input), 1)
  }

  /** The range field's number box: `setValue(name, parseInt(value) || 0)`. */
  function RangeBoxValue(input: string): (r: int)
    ensures ParseIntString(input).None? ==> r == 0
    ensures ParseIntString(input).Some? ==> r == ParseIntString(input).value
  {
    ParseIntOr(Str(input), 0)
  }

  /** The range field's number box shows '' for an undefined value. */
  function RangeBoxDisplay(watched: JsValue): (r: JsValue)
    ensures watched == Undefined ==> r == Str("")
    ensures watched != Undefined ==> r == watched
  {
    if watched == Undefined then Str("") else watched
  }

  /** An input holding the text of a number gives that number back. */
  lemma NumberInputRoundTrip(n: int)
    ensures NumberInputValue(NumberToString(n)) == Num(n)
    ensures RangeBoxValue(NumberToString(n)) == n
    ensures n != 0 ==> RadioInputValue(NumberToString(n)) == n
  {
    ParseIntOfNumber(n);
  }

  datatype RadioOption = RadioOption(value: JsValue, text: string)

  /** `options.find(option => option.value == watched)`, as an index. */
  function FindOption(options: seq<RadioOption>, watched: JsValue, from: nat): (r: Option<nat>)
    requires from <= |options|
    ensures r.Some? ==> from <= r.value < |options| && LooseEquals(options[r.value].value, watched)
    ensures r.Some? ==> forall j :: from <= j < r.value ==> !LooseEquals(options[j].value, watched)
    ensures r.None? ==> forall j :: from <= j < |options| ==> !LooseEquals(options[j].value, watched)
    decreases |options| - from
  {
    if from == |options| then None
    else if LooseEquals(options[from].value, watched) then Some(from)
    else FindOption(options, watched, from + 1)
  }

  /** What a read-only radio group shows. */
  datatype ReadOnlyAnswer = OptionLabel(text: string) | RawValue(value: JsValue)

  /** The first option loosely equal to the watched value, or the raw value. */
  function ReadOnlyRadio(options: seq<RadioOption>, watched: JsValue): (r: ReadOnlyAnswer)
    ensures r.OptionLabel? <==> exists j :: 0 <= j < |options| && LooseEquals(options[j].value, watched)
    ensures r.OptionLabel? ==>
              exists j :: 0 <= j < |options| && LooseEquals(options[j].value, watched) && r.text == options[j].text &&
                (forall i :: 0 <= i < j ==> !LooseEquals(options[i].value, watched))
    ensures r.RawValue? ==> r.value == watched
  {
    match FindOption(options, watched, 0)
    case Some(j) => OptionLabel(options[j].text)
    case None => RawValue(watched)
  }

  /** A stored score is shown with its option's label whether it is held as a number or as text. */
  lemma ReadOnlyShowsStoredScore(options: seq<RadioOption>, j: nat, n: int)
    requires j < |options| && options[j].value == Num(n)
    ensures ReadOnlyRadio(options, Num(n)).OptionLabel?
    ensures ReadOnlyRadio(options, Str(NumberToString(n))).OptionLabel?
  {
    assert LooseEquals(options[j].value, Num(n));
    LooseEqualsNumberString(n);
    assert LooseEquals(options[j].value, Str(NumberToString(n)));
  }
}
