/** The toast notifications both forms raise: a title, a description and a visual variant. */
module Toasts {

  datatype Variant = Default | Destructive

  datatype Toast = Toast(title: string, description: string, variant: Variant)
}
