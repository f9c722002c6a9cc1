/** Model of `getBestMx` of `src/dns/dns.ts`: the choice of mail exchanger
    over the records the resolver returned (the lookup itself is foreign; an
    error or a timeout reaches this code as an empty list). */
module Dns {
  import opened Text

  datatype MxRecord = MxRecord(exchange: string, priority: int)

  /** Scans the records once, moving `bestIndex` only on a strictly lower
      priority. */
  method GetBestMx(addresses: seq<MxRecord>) returns (best: Option<MxRecord>)
    ensures addresses == [] <==> best.None?
    ensures best.Some? ==> best.value in addresses
    ensures best.Some? ==> forall j :: 0 <= j < |addresses| ==> best.value.priority <= addresses[j].priority
    ensures best.Some? ==> exists k :: 0 <= k < |addresses| && addresses[k] == best.value &&
                                       forall j :: 0 <= j < k ==> addresses[j].priority > best.value.priority
  {
    if |addresses| == 0 {
      return None;
    }
    var bestIndex := 0;
    for i := 0 to |addresses|
      invariant 0 <= bestIndex < |addresses|
      invariant bestIndex == 0 || bestIndex < i
      invariant forall j :: 0 <= j < i ==> addresses[bestIndex].priority <= addresses[j].priority
      invariant forall j :: 0 <= j < bestIndex ==> addresses[j].priority > addresses[bestIndex].priority
    {
      if addresses[i].priority < addresses[bestIndex].priority {
        bestIndex := i;
      }
    }
    return Some(addresses[bestIndex]);
  }
}
