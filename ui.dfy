/** The side effects a handler emits, recorded in order instead of performed: notifications,
    navigation, calls to the document store and calls to a parent component's callback. */
module Ui {
  import opened Js

  datatype ToastKind = Success | Error

  datatype Effect =
    | Toast(kind: ToastKind, message: string)
    | Navigate(path: string)
    | AddDoc(collection: string, document: Doc)
    | DeleteDoc(collection: string, id: string)
    | OnDeleteCalled(id: string, snippetType: string)
}
