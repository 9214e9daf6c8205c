// A run of a provisioning script against a remote: it stops when no call is
// left to it, whatever it was doing.
module CutOff {
  datatype Session<R> = Session(remote: R, calls: nat, alive: bool)

  function Called<R>(s: Session<R>): Session<R>
  {
    if s.calls == 0 then s.(alive := false) else s.(calls := s.calls - 1)
  }

  function Stopped<R>(s: Session<R>): Session<R> {
    s.(alive := false)
  }
}
