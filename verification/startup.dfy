/** Server start-up: listen on the configured port, and while the port is
    already in use move on to the next, for at most three ports in all; any
    other listen error, or running out of ports, ends the process. The outcome
    of each listen attempt is the parameter `listen`. */
module Startup {
  import opened Common

  /** Why a listen attempt failed. */
  datatype ListenError = AddressInUse | OtherError

  /** Where start-up ends, with the number of listen attempts made. */
  datatype Startup = Listening(port: int, attempts: nat) | Exit(attempts: nat)

  /** `Number(PORT) || 3000`: `None` stands for an unset or non-numeric
      variable; 0 falls back too. */
  function BasePort(configured: Option<int>): (p: int)
    ensures p != 0
    ensures configured.Some? && configured.value != 0 ==> p == configured.value
    ensures configured.None? || configured.value == 0 ==> p == 3000
  {
    match configured
    case Some(n) => if n == 0 then 3000 else n
    case None => 3000
  }

  function CandidatePorts(base: int): (ports: seq<int>)
    ensures |ports| == 3 && ports[0] == base
    ensures forall i :: 0 < i < 3 ==> ports[i] == ports[i - 1] + 1
  {
    [base, base + 1, base + 2]
  }

  /** `startOnIndex(idx)`: the attempts cover `ports[idx..]` in order. */
  function StartOnIndex(ports: seq<int>, idx: nat, listen: int -> Option<ListenError>): (r: Startup)
    requires idx <= |ports|
    ensures idx + r.attempts <= |ports|
    ensures forall j :: idx <= j < idx + r.attempts - 1 ==> listen(ports[j]) == Some(AddressInUse)
    ensures r.Listening? ==> r.attempts >= 1 && r.port == ports[idx + r.attempts - 1] && listen(r.port).None?
    ensures r.Exit? ==>
              || (idx + r.attempts == |ports| && forall j :: idx <= j < |ports| ==> listen(ports[j]) == Some(AddressInUse))
              || (r.attempts >= 1 && listen(ports[idx + r.attempts - 1]) == Some(OtherError))
    decreases |ports| - idx
  {
    if idx >= |ports| then Exit(0)
    else
      match listen(ports[idx])
      case None => Listening(ports[idx], 1)
      case Some(OtherError) => Exit(1)
      case Some(AddressInUse) =>
        var rest := StartOnIndex(ports, idx + 1, listen);
        if rest.Listening? then Listening(rest.port, rest.attempts + 1) else Exit(rest.attempts + 1)
  }

  /** Start-up from the configuration: at most three attempts, and only on
      the three candidate ports. */
  function Start(configured: Option<int>, listen: int -> Option<ListenError>): (r: Startup)
    ensures r.attempts <= 3
    ensures r.Listening? ==> r.port in CandidatePorts(BasePort(configured))
  {
    StartOnIndex(CandidatePorts(BasePort(configured)), 0, listen)
  }

  /** The first port that is free wins when every earlier one is in use. */
  lemma FirstFreePortWins(configured: Option<int>, listen: int -> Option<ListenError>, k: nat)
    requires k < 3
    requires forall i :: 0 <= i < k ==> listen(CandidatePorts(BasePort(configured))[i]) == Some(AddressInUse)
    requires listen(CandidatePorts(BasePort(configured))[k]).None?
    ensures Start(configured, listen) == Listening(CandidatePorts(BasePort(configured))[k], k + 1)
  {
  }

  /** When all three ports are in use, start-up exits after trying each. */
  lemma AllInUseExits(configured: Option<int>, listen: int -> Option<ListenError>)
    requires forall i :: 0 <= i < 3 ==> listen(CandidatePorts(BasePort(configured))[i]) == Some(AddressInUse)
    ensures Start(configured, listen) == Exit(3)
  {
  }

  /** An error other than "address in use" on the first port ends start-up at once. */
  lemma OtherErrorStopsAtOnce(configured: Option<int>, listen: int -> Option<ListenError>)
    requires listen(BasePort(configured)) == Some(OtherError)
    ensures Start(configured, listen) == Exit(1)
  {
  }
}
