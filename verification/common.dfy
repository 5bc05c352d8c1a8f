/** Values shared by the components: optional values, results, JavaScript
    truthiness of optional strings, toast notifications and the callbacks a
    popup fires at its owner. */
module Common {

  datatype Option<+T> = None | Some(value: T)

  /** The value an async operation resolves to, or the error it rejects with. */
  datatype Result<+T, +E> = Success(value: T) | Failure(error: E)

  /** JavaScript truthiness of a string-valued field that may be absent
      (`undefined` or `null`): only a present, non-empty string is truthy. */
  predicate Truthy(v: Option<string>)
  {
    v.Some? && v.value != ""
  }

  /** JavaScript `v || rest` for an optional string and a string fallback. */
  function OrElse(v: Option<string>, rest: string): string
  {
    if Truthy(v) then v.value else rest
  }

  /** A transient toast (`message.success` / `message.error`). */
  datatype Level = SuccessToast | ErrorToast
  datatype Notice = Notice(level: Level, text: string)

  /** What a popup handler asks of its owner: the location reported through
      `onSelectLocation` (if any), whether `onClose` was called, and the toast
      it showed (if any). */
  datatype Effects = Effects(chosen: Option<string>, close: bool, notice: Option<Notice>)

  const NoEffects := Effects(None, false, None)
}
