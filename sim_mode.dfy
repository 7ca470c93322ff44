/**
 * The simulation modes. Both the recorder and the argument parser branch on
 * the mode's name; every other name is accepted by them and treated as "no
 * mode", so the model keeps the name as a string and decodes it here.
 */
module SimModes {
  import opened Wrappers

  datatype Mode = PoolMode | ControllerMode | NMode

  function ModeName(m: Mode): string
  {
    match m
    case PoolMode => "pool"
    case ControllerMode => "controller"
    case NMode => "N"
  }

  /** The mode a name selects; `None` for an unrecognised name. */
  function ParseMode(name: string): (r: Option<Mode>)
    ensures forall m :: r == Some(m) <==> name == ModeName(m)
  {
    if name == "pool" then Some(PoolMode)
    else if name == "controller" then Some(ControllerMode)
    else if name == "N" then Some(NMode)
    else None
  }
}
