/** The records shared by the plotting engine and the function list. */
module Types {

  /** A value that may be null in the source. */
  datatype Option<+T> = None | Some(value: T)

  /** The visible region: the math point drawn at the canvas centre and the
      number of screen pixels per math unit. */
  datatype Viewport = Viewport(centerX: real, centerY: real, scale: real)

  /** One entry of the user's function list; `error` is None when the
      expression compiled. */
  datatype PlottedFunction = PlottedFunction(
    id: string,
    expression: string,
    color: string,
    visible: bool,
    error: Option<string>)
}
