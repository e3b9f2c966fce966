/** The states of a plugin instance and the transitions between them. */
module FiberStates {
  datatype FiberState = Created | WaitingDependencies | Starting | Active | Reloading | Disposing | Disposed | Failed

  predicate CanTransition(from: FiberState, to: FiberState) {
    match from
    case Created => to in {WaitingDependencies, Starting, Disposing}
    case WaitingDependencies => to in {Starting, Disposing}
    case Starting => to in {Active, Failed, Disposing}
    case Reloading => to in {Active, Failed, Disposing}
    case Active => to in {Reloading, Disposing, Failed}
    case Failed => to == Disposing
    case Disposing => to in {Disposed, WaitingDependencies}
    case Disposed => false
  }

  /** The states in which a plugin may register. */
  predicate Mutable(state: FiberState) {
    state == Starting || state == Active || state == Reloading
  }
}
