/** The visible side effects of a handler, recorded as values: notifications and navigation. */
module Effects {

  /** A `sonner` toast, or none. */
  datatype Toast = Silent | Success(text: string) | Failure(text: string)

  /** What a handler asks the router to do. */
  datatype Nav = Stay | Push(path: string) | Replace(path: string)

  /** A component's new state together with the notification it raised. */
  datatype Step<S> = Step(state: S, toast: Toast)
}
