/** Datatypes shared by the API client and the views. */
module Common {

  datatype Option<+T> = None | Some(value: T)

  /** The body of a non-2xx reply: its `error` field and its optional `errors` list. */
  datatype ErrorBody = ErrorBody(error: string, errors: Option<seq<string>>)

  /**
   * What a failed HTTP call reports: the reply (when the server answered),
   * whether a request went out, and the exception's own message.
   */
  datatype HttpError = HttpError(response: Option<ErrorBody>, requestSent: bool, message: string)

  /** The raw outcome of one HTTP call, before the client normalises its error. */
  datatype Call<+T> = Responded(body: T) | Failed(error: HttpError)

  /** What an endpoint wrapper hands to its caller: the payload, or a thrown Error's message. */
  datatype Result<+T> = Ok(value: T) | Err(message: string)

  /** The reply of a call whose body the caller ignores. */
  datatype Ack = Ack

  datatype ToastKind = SuccessToast | ErrorToast | InfoToast | WarningToast

  /** A transient notification as the views emit it. */
  datatype Toast = Toast(text: string, kind: ToastKind)

  /**
   * An issue as the views read it. A text field the backend leaves out is "":
   * where a view tests such a field for truthiness, a missing value and ""
   * behave alike; the few reads that do not test it are taken as reading "".
   * A missing priority is None.
   */
  datatype Issue = Issue(
    id: string,
    category: string,
    severity: string,
    status: string,
    description: string,
    city: string,
    priority: Option<real>)

  /**
   * `table[key] || fallback`: the entry when the key is mapped to a non-empty
   * string, the fallback otherwise.
   */
  function LookupOr(table: map<string, string>, key: string, fallback: string): (r: string)
    ensures key in table && table[key] != "" ==> r == table[key]
    ensures !(key in table && table[key] != "") ==> r == fallback
  {
    if key in table && table[key] != "" then table[key] else fallback
  }
}
