/** Result and state wrappers shared by every view model of the app. */
module Common {

  /** Kotlin's nullable `T?`. */
  datatype Option<+T> = None | Some(value: T) {
    /** `x ?: default` */
    function GetOr(default: T): T {
      match this
      case Some(v) => v
      case None => default
    }
  }

  /**
   * The outcome of a repository call: `Resource.Success(data)` or
   * `Resource.Error(message)`; both payloads are nullable.
   */
  datatype Resource<+T> = Success(data: Option<T>) | Error(message: Option<string>) {
    /** `result.data`, which is null on an error outcome. */
    function Data(): Option<T> {
      if Success? then data else None
    }
  }

  /** A call that either returns or throws an exception carrying a nullable message. */
  datatype Call<+T> = Returned(value: T) | Threw(exceptionMessage: Option<string>)

  /** The view models' `UIState(isLoading = false, data = null, message = "")` record. */
  datatype UIState<+T> = UIState(isLoading: bool, data: Option<T>, message: string)

  /** `UIState()`: the initial state of every view model. */
  function Idle<T>(): UIState<T> {
    UIState(false, None, "")
  }

  /** `UIState(isLoading = true)` */
  function Loading<T>(): UIState<T> {
    UIState(true, None, "")
  }

  /** `UIState(data = d)` */
  function WithData<T>(d: Option<T>): UIState<T> {
    UIState(false, d, "")
  }

  /** `UIState(message = m)` */
  function WithMessage<T>(m: string): UIState<T> {
    UIState(false, None, m)
  }

  /** `message ?: default` */
  function MessageOr(m: Option<string>, default: string): string {
    m.GetOr(default)
  }

  /** `message.toString()` on a nullable string: null prints as "null". */
  function NullableToString(m: Option<string>): string {
    m.GetOr("null")
  }
}
