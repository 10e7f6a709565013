/** The shared cell holding the processor currently chosen by the health checker
    (internal/workers/selector.go). Go keeps it in an atomic.Value; a value
    that has never been stored reads as nil. */
module Selector {
  import opened Wrappers
  import opened Dtos

  class ServiceSelector {
    /** The atomic.Value: None until something is stored. */
    var active: Option<PaymentAPI>

    /** What GetActive reports for the current state. */
    function Reported(): PaymentAPI
      reads this
    {
      if active.Some? then active.value else DefaultApi
    }

    /** NewServiceSelector: stores DEFAULT_API before anyone can read. */
    constructor ()
      ensures active == Some(DefaultApi)
      ensures Reported() == DefaultApi
    {
      active := Some(DefaultApi);
    }

    /** The zero value &ServiceSelector{}: nothing stored yet. */
    constructor Zero()
      ensures active == None
      ensures Reported() == DefaultApi
    {
      active := None;
    }

    /** GetActive: the stored processor, DEFAULT_API when nothing is stored; never fails. */
    method GetActive() returns (api: PaymentAPI)
      ensures active.None? ==> api == DefaultApi
      ensures active.Some? ==> api == active.value
    {
      if active.None? {
        api := DefaultApi;
      } else {
        api := active.value;
      }
    }

    /** SetActive: replaces the whole value. */
    method SetActive(api: PaymentAPI)
      modifies this
      ensures active == Some(api)
      ensures Reported() == api
    {
      active := Some(api);
    }
  }

  /** A fresh selector reports DEFAULT_API; after SetActive(x) it reports x;
      repeating SetActive(x) leaves the cell as it was; the last writer wins. */
  method SelectorHistory(x: PaymentAPI, y: PaymentAPI)
    returns (first: PaymentAPI, afterX: PaymentAPI, once: Option<PaymentAPI>, twice: Option<PaymentAPI>, afterY: PaymentAPI)
    ensures first == DefaultApi
    ensures afterX == x
    ensures once == twice == Some(x)
    ensures afterY == y
  {
    var s := new ServiceSelector();
    first := s.GetActive();
    s.SetActive(x);
    once := s.active;
    s.SetActive(x);
    twice := s.active;
    afterX := s.GetActive();
    s.SetActive(y);
    afterY := s.GetActive();
  }

  /** A selector nothing was ever stored in reads as DEFAULT_API. */
  method ZeroSelectorReadsDefault() returns (api: PaymentAPI)
    ensures api == DefaultApi
  {
    var s := new ServiceSelector.Zero();
    api := s.GetActive();
  }
}
