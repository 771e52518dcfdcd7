/** Values shared by the three harness variants: a test step read from a
    screen sheet and the `(success, message)` pair a keyword returns. */
module Steps {

  /** One executable step: the field (column) it came from, the keyword
      to run, the element locator and the data value. `L` is how the
      locator travels: as text where the reader turns an empty cell into
      "", as the cell itself where it passes `None` on. */
  datatype Step<L> = Step(field: string, keyword: string, locator: L, value: string)

  /** The `(bool, str)` tuple a keyword handler returns. */
  datatype Outcome = Outcome(success: bool, message: string)

  /** Python's `str(b)` for a boolean. */
  function PyBool(b: bool): string {
    if b then "True" else "False"
  }
}
