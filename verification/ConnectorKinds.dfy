/** The kinds of agent a connector can reach, and their names on the wire. */
module ConnectorKinds {

  datatype ConnectorType = Traction | Credo

  function Name(t: ConnectorType): string {
    match t
    case Traction => "traction"
    case Credo => "credo"
  }
}
