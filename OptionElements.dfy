/**
 * The `<option>` children the menu reads its items from, and the value an
 * option reports.
 *
 * An option's `value` is its `value` attribute when it has one and its
 * text otherwise. `connectedCallback` moves each option's child nodes into
 * the wedge it builds, which leaves the option without text. The wedge's
 * click listener reads `optionElement.value` only later, at click time, so
 * an option without a `value` attribute reports the empty string by then.
 * `ValueAtClickAsWritten` is that reading; the rest of the model uses
 * `OptionValue`, the value the option has before its content is moved.
 */
module OptionElements {

  datatype Option<T> = None | Some(value: T)

  /** An `<option>`: its `value` attribute, if any, and its text content. */
  datatype OptionElement = OptionElement(valueAttribute: Option<string>, text: string)

  /** `option.value`: the attribute if present, the text otherwise. */
  function OptionValue(o: OptionElement): (v: string)
    ensures o.valueAttribute.Some? ==> v == o.valueAttribute.value
    ensures o.valueAttribute.None? ==> v == o.text
  {
    match o.valueAttribute
    case Some(attr) => attr
    case None => o.text
  }

  /** The option after its child nodes have been appended elsewhere: the
      attribute stays, the text is gone. */
  function ContentMoved(o: OptionElement): (moved: OptionElement)
    ensures moved.valueAttribute == o.valueAttribute && moved.text == ""
  {
    o.(text := "")
  }

  /** What the wedge's listener assigns, as the listener is written: the
      option's value read after its content has been moved away. */
  function ValueAtClickAsWritten(o: OptionElement): (v: string)
    ensures v == (if o.valueAttribute.Some? then o.valueAttribute.value else "")
  {
    OptionValue(ContentMoved(o))
  }

  /** With a `value` attribute the late reading is harmless: it gives the
      option's own value. */
  lemma AttributeSurvivesMove(o: OptionElement)
    requires o.valueAttribute.Some?
    ensures ValueAtClickAsWritten(o) == OptionValue(o) == o.valueAttribute.value
  {
  }

  /** Without one, the late reading is always the empty string, which differs
      from the option's value whenever the option has a label. */
  lemma LabelOnlyOptionLosesValue(o: OptionElement)
    requires o.valueAttribute.None?
    ensures ValueAtClickAsWritten(o) == ""
    ensures o.text != "" ==> ValueAtClickAsWritten(o) != OptionValue(o)
  {
  }

  /** `<option>Apple</option>`: its value is "Apple", but clicking its wedge
      as written selects "". */
  lemma AppleSelectsEmpty()
    ensures OptionValue(OptionElement(None, "Apple")) == "Apple"
    ensures ValueAtClickAsWritten(OptionElement(None, "Apple")) == ""
  {
  }
}
