/** The optional value used wherever the site's code reads something that may be absent
    (a form field, a request property, the model's reply, a stored preference). */
module Wrappers {

  datatype Option<+T> = None | Some(value: T)
}
