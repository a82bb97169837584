/** Presentation values several pages share. */
module Ui {
  /** The variants of the badge component. */
  datatype Badge = Default | Outline | Destructive | Secondary
}
