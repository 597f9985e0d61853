/**
  Interactive parameters of a chart specification (selections and variables).
  Layers refer to a parameter by its name only.
*/
module Params {

  /**
    The name of a parameter: either one its creator chose, or one the chart library
    generates from its running counter when none was given.
  */
  datatype Name = Given(text: string) | Auto(serial: nat)

  /** How a parameter gets its value at render time. */
  datatype Trigger =
    | Outside                            // created by a caller; its definition is not modelled
    | PointSelection(on: string, clear: string)  // a point selection set on `on` and cleared on `clear`

  datatype Param = Param(name: Name, trigger: Trigger)
}
