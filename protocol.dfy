/** The values exchanged between the HTTP handlers, the command channel and the
    playback worker of the audio server. */
module Protocol {

  datatype Option<+T> = None | Some(value: T)

  /** The operation code every handler answers with. */
  datatype ResponseCode = Success | ParameterError | ServerError

  /** The JSON body of every handler's answer. */
  datatype Response = Response(msg: string, code: ResponseCode)

  /** A command for the playback worker; the paths are already joined to the asset root. */
  datatype Message =
    | Play(path: string)
    | PlayLoop(path: string)
    | Pause
    | Resume
    | Stop
  {
    /** Play and PlayLoop name a file; the other three act on the sink alone. */
    predicate NamesFile() { Play? || PlayLoop? }
  }

  const Accepted := Response("success", Success)
  const FileNotFound := Response("File not found", ParameterError)
}
