/** Visual vocabulary shared by the pages: the variants a `Badge` or `Button`
    of the component library accepts, and the two trend icons. */
module Ui {

  datatype Variant = Default | Secondary | Destructive | Outline | Ghost

  datatype Icon = TrendingUp | TrendingDown
}
