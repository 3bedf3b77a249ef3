/**
 * The snackbar: one shared notification slot. `show` merges the given options
 * over fixed defaults and replaces whatever was shown before; nothing is
 * queued.
 */
module Snackbar {
  import opened Common

  datatype Severity = Success | Error | Warning | Info

  /** `SnackbarOptions`: the message is required, the duration and the type may be omitted. */
  datatype SnackbarOptions = SnackbarOptions(message: string, duration: Option<int>, severity: Option<Severity>)

  datatype SnackbarInstance = SnackbarInstance(modelValue: bool, options: SnackbarOptions)

  const DefaultDuration := 5000

  const DefaultOptions := SnackbarOptions("", Some(DefaultDuration), Some(Info))

  /** A field of `{ ...defaults, ...given }`: a supplied value wins over the default. */
  function Over<T>(default: Option<T>, given: Option<T>): Option<T> {
    if given.Some? then given else default
  }

  /** `{ ...defaultOptions, ...options }`. */
  function MergeOptions(options: SnackbarOptions): (r: SnackbarOptions)
    ensures r.message == options.message
    ensures r.duration == if options.duration.Some? then options.duration else Some(DefaultDuration)
    ensures r.severity == if options.severity.Some? then options.severity else Some(Info)
  {
    SnackbarOptions(options.message,
                    Over(DefaultOptions.duration, options.duration),
                    Over(DefaultOptions.severity, options.severity))
  }

  /**
   * `{ ...instance, options: merged, modelValue: true }`: the snackbar is
   * visible with the merged options, and nothing of the previous state is left.
   */
  function Shown(previous: SnackbarInstance, options: SnackbarOptions): (r: SnackbarInstance)
    ensures r == SnackbarInstance(true, MergeOptions(options))
  {
    previous.(options := MergeOptions(options), modelValue := true)
  }

  /** The shared notification slot. */
  class Snackbar {
    var instance: SnackbarInstance

    /** The slot starts hidden, holding the default options. */
    constructor ()
      ensures instance == SnackbarInstance(false, DefaultOptions)
    {
      instance := SnackbarInstance(false, DefaultOptions);
    }

    method Show(options: SnackbarOptions)
      modifies this
      ensures instance == Shown(old(instance), options)
    {
      var mergedOptions := MergeOptions(options);
      instance := instance.(options := mergedOptions, modelValue := true);
    }
  }

  /**
   * After `show` the snackbar is visible with the given message, and every
   * option is set: the supplied ones as given, the omitted ones to the defaults.
   */
  lemma ShownOptions(previous: SnackbarInstance, options: SnackbarOptions)
    ensures var s := Shown(previous, options);
            s.modelValue && s.options.message == options.message
            && s.options.duration.Some? && s.options.severity.Some?
            && (options.duration.Some? ==> s.options.duration == options.duration)
            && (options.duration.None? ==> s.options.duration == DefaultOptions.duration)
            && (options.severity.Some? ==> s.options.severity == options.severity)
            && (options.severity.None? ==> s.options.severity == DefaultOptions.severity)
  {
  }

  /** What was shown before leaves no trace: omitted fields revert to the defaults, not to the previous call's values. */
  lemma ShownForgetsPrevious(p: SnackbarInstance, q: SnackbarInstance, options: SnackbarOptions)
    ensures Shown(p, options) == Shown(q, options)
  {
  }

  /** Showing the same options twice gives the same state as showing them once. */
  lemma ShownIdempotent(previous: SnackbarInstance, options: SnackbarOptions)
    ensures Shown(Shown(previous, options), options) == Shown(previous, options)
  {
  }

  /** Showing only a message gives exactly the defaults with that message. */
  lemma ShowMessageOnly(previous: SnackbarInstance, message: string)
    ensures Shown(previous, SnackbarOptions(message, None, None)) == SnackbarInstance(true, DefaultOptions.(message := message))
  {
  }
}
