/** The notifications the components raise (`toast.success` and `toast.error`);
    showing them is left out, their text is part of the model. */
module Notifications {
  datatype Toast = Success(text: string) | Failure(text: string)
}
