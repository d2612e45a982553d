/**
 The forward-only state tables shared by every guarded update. A guarded update
 is `UPDATE ... WHERE state IN (below)`: it matches a row exactly when the row's
 current state is in the from-set.
 */
module StateMapping {

  datatype OperationState = Pending | Processing | Completed | Failed

  function OperationRank(s: OperationState): nat {
    match s
    case Pending => 0
    case Processing => 1
    case Completed => 2
    case Failed => 2
  }

  predicate Terminal(s: OperationState) {
    s == Completed || s == OperationState.Failed
  }

  function OperationStatesBelow(target: OperationState): set<OperationState> {
    set s: OperationState | OperationRank(s) < OperationRank(target)
  }

  datatype CredentialState = Offered | Issued | Revoked | Expired | Failed

  function CredentialStatesBelow(target: CredentialState): set<CredentialState> {
    match target
    case Offered => {}
    case Issued => {Offered}
    case Failed => {Offered}
    case Revoked => {Issued}
    case Expired => {Offered}
  }
}
