/** The closed set of devices whose broker connection the console displays. */
module Devices {
  import opened Outcomes

  datatype Device = CircuitHandler | CheckpointA | CheckpointB | CheckpointC | CheckpointD

  /** The client identifier a device reports in its connectivity payload: the
      circuit handler's own, or "checkpoint-" followed by the checkpoint's letter. */
  function Name(d: Device): (r: string)
    ensures d == CircuitHandler <==> r == "circuit-handler"
    ensures d != CircuitHandler ==> |r| == 12 && r[..11] == "checkpoint-" && 'A' <= r[11] <= 'D'
    ensures d == CheckpointA ==> r[11] == 'A'
    ensures d == CheckpointB ==> r[11] == 'B'
    ensures d == CheckpointC ==> r[11] == 'C'
    ensures d == CheckpointD ==> r[11] == 'D'
  {
    match d
    case CircuitHandler => "circuit-handler"
    case CheckpointA => "checkpoint-A"
    case CheckpointB => "checkpoint-B"
    case CheckpointC => "checkpoint-C"
    case CheckpointD => "checkpoint-D"
  }

  /** The match on the client identifier: a known identifier names exactly one device. */
  function Parse(id: string): (r: Option<Device>)
    ensures r.Some? ==> Name(r.value) == id
    ensures r.None? ==> forall d: Device :: Name(d) != id
  {
    if id == "circuit-handler" then Some(CircuitHandler)
    else if id == "checkpoint-A" then Some(CheckpointA)
    else if id == "checkpoint-B" then Some(CheckpointB)
    else if id == "checkpoint-C" then Some(CheckpointC)
    else if id == "checkpoint-D" then Some(CheckpointD)
    else None
  }

  /** Parse inverts Name. */
  lemma ParseName(d: Device)
    ensures Parse(Name(d)) == Some(d)
  {
  }

  /** A connection map that holds a flag for every device. */
  predicate Complete(m: map<Device, bool>) {
    forall d: Device :: d in m
  }

  const AllDown: map<Device, bool> :=
    map[CircuitHandler := false, CheckpointA := false, CheckpointB := false,
        CheckpointC := false, CheckpointD := false]

  /** Every device starts disconnected. */
  lemma AllDownIsComplete()
    ensures Complete(AllDown) && forall d: Device :: !AllDown[d]
  {
    forall d: Device ensures d in AllDown && !AllDown[d] {
      match d
      case CircuitHandler =>
      case CheckpointA =>
      case CheckpointB =>
      case CheckpointC =>
      case CheckpointD =>
    }
  }
}
