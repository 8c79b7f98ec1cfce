/** Presentation values the pages compute: the palette names of the
    component library's chips and buttons. */
module Ui {

  /** A palette name passed as a component's `color`. */
  datatype Colour = Default | Primary | Secondary | Success | Warning | Error | Info
}
