/** What the ports of the services answer. */
module Ports {

  datatype Option<+T> = None | Some(value: T)

  /** A port call answers, or takes effect with its answer lost, or never runs. */
  datatype Port = Answered | AnswerLost | NeverRan
}
