/** The recurrence picker (src/components/todos/RecurrencePicker.tsx): a
    stateless view of a recurrence mode and an optional end date, whose two
    handlers forward one new value to the caller and pass the other through. */
module RecurrencePicker {
  import opened Wrappers
  import opened TodoTypes

  /** The picker's inputs; the caller owns this state. */
  datatype PickerProps = PickerProps(value: Recurrence, endDate: Option<Time>)

  /** One call of `onChange(recurrence, endDate)`. */
  datatype Change = Change(recurrence: Recurrence, endDate: Option<Time>)

  datatype SelectOption = SelectOption(value: Recurrence, caption: string)

  /** What the picker renders: the selected mode, the option list and, when
      present, the text of the end-date field. */
  datatype PickerView = PickerView(
    selected: Recurrence,
    options: seq<SelectOption>,
    endDateField: Option<string>)

  /** The selectable modes in display order. */
  function RecurrenceOptions(): (r: seq<SelectOption>)
    ensures |r| == 4
    ensures forall i, j :: 0 <= i < j < |r| ==> r[i].value != r[j].value
    ensures r[0].value == NoRecurrence
  {
    [ SelectOption(NoRecurrence, "Does not repeat"),
      SelectOption(Daily, "Daily"),
      SelectOption(Weekly, "Weekly"),
      SelectOption(Monthly, "Monthly") ]
  }

  /** The modes of an option list, in order. */
  function Values(options: seq<SelectOption>): seq<Recurrence>
  {
    seq(|options|, i requires 0 <= i < |options| => options[i].value)
  }

  /** Every recurrence mode is offered, once, in the order none, daily,
      weekly, monthly. */
  lemma OptionsCoverEveryMode(m: Recurrence)
    ensures m in Values(RecurrenceOptions())
    ensures Values(RecurrenceOptions()) == [NoRecurrence, Daily, Weekly, Monthly]
  {
  }

  /** The end-date field is rendered only for a repeating mode. */
  predicate ShowsEndDate(p: PickerProps) {
    p.value != NoRecurrence
  }

  /** The rendered picker; `format` is the date-to-`yyyy-mm-dd` formatting,
      which the model leaves to the caller. */
  function View(p: PickerProps, format: Time -> string): (v: PickerView)
    ensures v.selected == p.value
    ensures v.options == RecurrenceOptions()
    ensures v.endDateField.Some? <==> p.value != NoRecurrence
    ensures v.endDateField.Some? && p.endDate.None? ==> v.endDateField.value == ""
    ensures p.value != NoRecurrence && p.endDate.Some? ==> v.endDateField == Some(format(p.endDate.value))
  {
    PickerView(
      p.value,
      RecurrenceOptions(),
      if ShowsEndDate(p) then
        Some(if p.endDate.Some? then format(p.endDate.value) else "")
      else None)
  }

  /** Picking a mode. */
  function OnModeSelected(p: PickerProps, selected: Recurrence): (c: Change)
    ensures c.recurrence == selected
    ensures c.endDate == p.endDate
  {
    Change(selected, p.endDate)
  }

  /** Typing in the end-date field; an empty input clears the date, and
      `parse` is the browser's date parsing, left to the caller. */
  function OnEndDateInput(p: PickerProps, input: string, parse: string -> Time): (c: Change)
    ensures c.recurrence == p.value
    ensures input == "" ==> c.endDate.None?
    ensures input != "" ==> c.endDate == Some(parse(input))
  {
    Change(p.value, if input != "" then Some(parse(input)) else None)
  }

  /** The caller storing a change as the picker's next inputs. */
  function Applied(c: Change): (p: PickerProps)
    ensures p.value == c.recurrence && p.endDate == c.endDate
  {
    PickerProps(c.recurrence, c.endDate)
  }

  /** Re-selecting the current mode changes nothing. */
  lemma ReselectIsIdentity(p: PickerProps)
    ensures Applied(OnModeSelected(p, p.value)) == p
  {
  }

  /** Switching to "does not repeat" hides the end-date field but keeps the
      date, so switching back renders the picker exactly as before. */
  lemma HiddenDateSurvives(p: PickerProps, format: Time -> string)
    ensures View(Applied(OnModeSelected(p, NoRecurrence)), format).endDateField.None?
    ensures Applied(OnModeSelected(p, NoRecurrence)).endDate == p.endDate
    ensures var q := Applied(OnModeSelected(p, NoRecurrence));
      View(Applied(OnModeSelected(q, p.value)), format) == View(p, format)
  {
  }

  /** A mode change and a date change touch different halves of the state:
      applied in either order they give the same inputs. */
  lemma ChangesCommute(p: PickerProps, m: Recurrence, input: string, parse: string -> Time)
    ensures var a := Applied(OnEndDateInput(Applied(OnModeSelected(p, m)), input, parse));
      var b := Applied(OnModeSelected(Applied(OnEndDateInput(p, input, parse)), m));
      a == b && a.value == m && a.endDate == (if input == "" then None else Some(parse(input)))
  {
  }
}
